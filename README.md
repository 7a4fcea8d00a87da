# Container telemetry snapshot: the refresh cycle and the CPU percentage

This project models the core of a small monitoring service. A background loop samples every
Docker container, plus a few host figures, and caches the result for a read API. The model
covers two pieces of `v1.py`:

- `calculate_cpu_percent` (module `CpuPercent`). It turns two cumulative counter samples from
  a Docker stats reply into a percentage. The reply is a record of `Option` fields, so a missing
  dictionary key at any depth is a `None`. The result is an exact `real`.
- one iteration of the `update_data` loop. Module `ContainerSampler` builds the entry of one
  container. Module `Refresh` holds the `for` loop that builds the entry list (`BuildResult`)
  and the cache (the class `SnapshotCache`, whose method `UpdateOnce` replaces `containers`,
  `system` and `last_update` under one lock).

Each listed container is a `Sample` value that holds what every call on it answers: the reload
and `attrs["State"]`, the stats reply, the image tags and the ports. A call that raises is a
`Failure` carrying the exception's message. The outcome of listing containers is an input:
`None` stands for the missing Docker client, `Some(list)` for the listing. The host figures and
the timestamp are inputs too.

`calculate_cpu_percent` does not clamp its result: when `system_delta > 0` and the reply lists at
least one per-core counter, a counter that went backwards gives a negative percentage
(`BackwardsCounterIsNotClamped`); with no `percpu_usage` the result is 0.

## Model

| member | source | states |
|---|---|---|
| `CpuPercent.CalculateCpuPercent` | v1.py:39-53 | the result is 0 when a counter key is missing, when the host counter did not advance (`system_delta <= 0`), or when there are no per-core counters; it is positive exactly when everything is present, the host counter advanced, there is a core and `cpu_delta > 0`, and negative exactly when `cpu_delta < 0` under the same conditions (no clamping) |
| `CpuPercent.CpuPercentIsShareOfHostTime` | v1.py:41-50 | when both deltas exist and `system_delta > 0`, `result * system_delta == cpu_delta * cpu_count * 100`, i.e. the result is `(cpu_delta / system_delta) * cpu_count * 100` |
| `CpuPercent.UnchangedCountersGiveZero` | v1.py:41-53 | counters 100 -> 100 and 500 -> 500 give 0 |
| `CpuPercent.FourCoreExample` | v1.py:41-50 | a delta of 20 over a host delta of 100 on 4 cores gives 80 |
| `CpuPercent.BackwardsCounterIsNotClamped` | v1.py:41-50 | a container counter that went back by 10 against a host delta of 100 on 1 core gives -10 |
| `CpuPercent.FirstSampleGivesZero` | v1.py:40-53 | a previous sample without counters gives 0 and raises nothing |
| `ContainerSampler.ShortId` | v1.py:85 | the short id is the prefix of the full id of length `min(len(id), 12)` |
| `ContainerSampler.RunningMetrics` | v1.py:78-82 | the metrics of a running container exist exactly when the stats call succeeded and `memory_stats` has `usage` and `limit`; a failed call keeps its message; the CPU figure is `calculate_cpu_percent` of the reply and the memory figures are the byte counts divided by 1024^2 |
| `ContainerSampler.SampleEntry` | v1.py:65-103 | one entry per container with the short id and the name; it is an error entry (state "ERROR") exactly when the reload, the stats call or a memory key (running only) or the image lookup fails, carrying the first failure's message (the call's message, or the first missing memory key); otherwise state is "UP" exactly when the status is "running" and "DOWN" otherwise, status defaults to "unknown" and restart count to 0, a stopped container has cpu, memory usage and limit 0, a running one has the figures derived from its stats |
| `ContainerSampler.StoppedIgnoresStats` | v1.py:74-82 | the entry of a container that is not running does not depend on its stats reply, which is never requested |
| `ContainerSampler.MissingMemoryKeyIsReported` | v1.py:81-82 | a running container whose reply lacks `memory_stats`, `usage` or `limit` gets an error entry whose message is the first missing key, read in the order `memory_stats`, `usage`, `limit` |
| `Refresh.Entries` | v1.py:64-104 | the entry list has one entry per listed container |
| `Refresh.EntriesAt` | v1.py:64-104 | entry `k` is the entry of container `k`: order is the listing order |
| `Refresh.EntriesAppend` | v1.py:64-104 | sampling a listing in two parts gives the concatenation of the two entry lists |
| `Refresh.FailureIsolation` | v1.py:65-103 | changing what one container answers, e.g. making its stats call raise, changes its own entry only; every other container still gets its entry |
| `Refresh.SnapshotIdsAreShort` | v1.py:63-85 | with no Docker client the list is empty; otherwise it has one entry per container and every id is a prefix of that container's id, at most 12 characters long |
| `Refresh.BuildResult` | v1.py:61-104 | the loop returns exactly one entry per listed container, in order, entry `k` being the entry of container `k`, and an empty list when there is no Docker client |
| `Refresh.SnapshotCache.constructor` | v1.py:27-31 | the cache starts with no containers, an empty `system` and an empty timestamp |
| `Refresh.SnapshotCache.UpdateOnce` | v1.py:60-111 | one cycle replaces `containers` with the entry list of the listing, `system` with the host figures and `last_update` with the timestamp, also when there is no Docker client, and keeps every cached id at most 12 characters long |

## Left out

- The Flask routes, the health endpoint and the API-key check (v1.py:123-164) are HTTP plumbing and authentication.
- The construction of the Docker client (v1.py:13-17) is an input: `None` means no client.
- The psutil calls (v1.py:106-110) and `time.ctime()` (v1.py:111) are foreign calls; their results are the inputs `host` and `now`.
- Refresh.SnapshotCache.UpdateOnce: the psutil calls are assumed not to raise. In the source `containers` is assigned first (v1.py:105). A psutil exception would leave the lock with the new `containers` next to the old `system` and `last_update`, and would end the updater thread.
- The background thread, the lock and `time.sleep(INTERVAL)` (v1.py:33-34, 58-60, 113, 118) are about concurrency and timing. One cycle is one sequential method, and the readers that run under the lock are not modelled.
- A failure of `docker_client.containers.list` (v1.py:64) is not caught by the source and ends the updater thread. The model takes the listing as given and claims nothing about that case.
- `CpuPercent.CalculateCpuPercent`: does not model `round(..., 2)`. The result is exact real arithmetic, not a rounded float.
- `ContainerSampler.SampleEntry`: does not model `round(..., 2)` on the memory figures, and it divides by 1024^2 as exact reals instead of floats.
- `ContainerSampler.SampleEntry`: the messages of exceptions raised by Docker calls are opaque strings taken from the input. Only the `KeyError` messages for missing memory keys are written out.
- A `percpu_usage` entry that is present but not a list, and values of the wrong type, are not modelled. Such values would raise inside the same `try`.
- Ports and image tags pass through unchanged, as `map<string, seq<string>>` and `seq<string>`.
- Changing the interval, forcing a refresh and collapsing concurrent builds do not exist in this code.
