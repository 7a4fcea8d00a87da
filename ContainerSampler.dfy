/**
 * One container's entry in the snapshot: the body of the per-container `try`/`except` in the
 * refresh loop. Every call the loop makes on the container is an input here, given as the
 * value it returned or the exception it raised.
 */
module ContainerSampler {
  import opened Wrappers
  import opened CpuPercent

  /** Length of the short container id shown in the snapshot. */
  const ShortIdLength: nat := 12

  /** Bytes in a mebibyte, the unit of the memory figures. */
  const Mebibyte: real := 1048576.0

  /** `attrs["State"]` after a reload: both keys are read with a default. */
  datatype ContainerState = ContainerState(status: Option<string>, restartCount: Option<int>)

  /** One listed container, with what each call on it answers. */
  datatype Sample = Sample(
    id: string,                           // full container id
    name: string,
    state: Result<ContainerState>,        // `c.reload()` then `c.attrs["State"]`
    stats: Result<Stats>,                 // `c.stats(stream=False)`, if it is asked
    image: Result<seq<string>>,           // `c.image.tags`
    ports: map<string, seq<string>>)      // `c.ports`, passed through

  /** The snapshot entry of one container: a report, or an error entry when sampling raised. */
  datatype Entry =
    | Report(id: string, name: string, image: seq<string>, dockerStatus: string, state: string,
             cpuPercent: real, memoryUsageMb: real, memoryLimitMb: real, restartCount: int,
             ports: map<string, seq<string>>)
    | Failed(id: string, name: string, state: string, error: string)

  /** The metric fields of a report. */
  datatype Metrics = Metrics(cpuPercent: real, memoryUsageMb: real, memoryLimitMb: real)

  function Min(a: nat, b: nat): nat { if a <= b then a else b }

  /** `id[:12]`: the id cut to its first twelve characters. */
  function ShortId(id: string): (r: string)
    ensures |r| == Min(|id|, ShortIdLength)
    ensures r <= id
  {
    if |id| <= ShortIdLength then id else id[..ShortIdLength]
  }

  /** `state.get("Status", "unknown")`. */
  function Status(st: ContainerState): string {
    st.status.GetOr("unknown")
  }

  /** The container could be reloaded and reports the status "running". */
  predicate IsRunning(c: Sample) {
    c.state.Success? && Status(c.state.value) == "running"
  }

  /** The reply has `memory_stats` with both `usage` and `limit`. */
  predicate MemoryKeysPresent(s: Stats) {
    s.memoryStats.Some? && s.memoryStats.value.usage.Some? && s.memoryStats.value.limit.Some?
  }

  /** Messages of the `KeyError` raised when a memory key is missing (Python's `str(KeyError(k))`). */
  const MissingMemoryStats: string := "'memory_stats'"
  const MissingUsage: string := "'usage'"
  const MissingLimit: string := "'limit'"

  /** The first memory key that indexing the reply does not find, in the order they are read. */
  function FirstMissingKey(s: Stats): Option<string> {
    if s.memoryStats.None? then Some(MissingMemoryStats)
    else if s.memoryStats.value.usage.None? then Some(MissingUsage)
    else if s.memoryStats.value.limit.None? then Some(MissingLimit)
    else None
  }

  /**
   * The metrics of a running container: the stats are fetched, the CPU percentage is derived
   * (that part never raises), then `usage` and `limit` are read and converted to mebibytes.
   */
  function RunningMetrics(reply: Result<Stats>): (r: Result<Metrics>)
    ensures r.Success? <==> reply.Success? && MemoryKeysPresent(reply.value)
    ensures reply.Failure? ==> r.error == reply.error
    ensures reply.Success? ==> (r.Failure? <==> FirstMissingKey(reply.value).Some?)
    ensures reply.Success? && r.Failure? ==> r.error == FirstMissingKey(reply.value).value
    ensures r.Success? ==>
              r.value.cpuPercent == CalculateCpuPercent(reply.value)
              && r.value.memoryUsageMb * Mebibyte == reply.value.memoryStats.value.usage.value as real
              && r.value.memoryLimitMb * Mebibyte == reply.value.memoryStats.value.limit.value as real
  {
    match reply
    case Failure(e) => Failure(e)
    case Success(s) =>
      var cpu := CalculateCpuPercent(s);
      if s.memoryStats.None? then Failure(MissingMemoryStats)
      else if s.memoryStats.value.usage.None? then Failure(MissingUsage)
      else if s.memoryStats.value.limit.None? then Failure(MissingLimit)
      else Success(Metrics(cpu, s.memoryStats.value.usage.value as real / Mebibyte,
                           s.memoryStats.value.limit.value as real / Mebibyte))
  }

  /** A running container's stats call raises or its reply lacks a memory key. */
  predicate MetricsFail(c: Sample) {
    IsRunning(c) && !(c.stats.Success? && MemoryKeysPresent(c.stats.value))
  }

  /** Sampling the container raises somewhere: reload, stats or memory keys (running only), image. */
  predicate SamplingFails(c: Sample) {
    c.state.Failure? || MetricsFail(c) || c.image.Failure?
  }

  /**
   * The entry of one container. A stopped container reports zeros without its stats being
   * asked; any exception turns the whole entry into a single error entry carrying its message.
   */
  function SampleEntry(c: Sample): (r: Entry)
    ensures r.id == ShortId(c.id) && |r.id| <= ShortIdLength && r.name == c.name
    ensures r.Failed? <==> SamplingFails(c)
    ensures r.Failed? <==> r.state == "ERROR"
    ensures r.Report? ==> (r.state == "UP" <==> IsRunning(c)) && (r.state == "DOWN" <==> !IsRunning(c))
    ensures r.Report? ==>
              r.dockerStatus == Status(c.state.value)
              && r.restartCount == c.state.value.restartCount.GetOr(0)
              && r.image == c.image.value && r.ports == c.ports
    ensures r.Report? && !IsRunning(c) ==>
              r.cpuPercent == 0.0 && r.memoryUsageMb == 0.0 && r.memoryLimitMb == 0.0
    ensures r.Report? && IsRunning(c) ==>
              r.cpuPercent == CalculateCpuPercent(c.stats.value)
              && r.memoryUsageMb * Mebibyte == c.stats.value.memoryStats.value.usage.value as real
              && r.memoryLimitMb * Mebibyte == c.stats.value.memoryStats.value.limit.value as real
    ensures c.state.Failure? ==> r.error == c.state.error
    ensures c.state.Success? && IsRunning(c) && c.stats.Failure? ==> r.error == c.stats.error
    ensures MetricsFail(c) && c.stats.Success? ==> r.error == FirstMissingKey(c.stats.value).value
    ensures c.state.Success? && !MetricsFail(c) && c.image.Failure? ==> r.error == c.image.error
  {
    var shortId := ShortId(c.id);
    match c.state
    case Failure(e) => Failed(shortId, c.name, "ERROR", e)
    case Success(st) =>
      var status := Status(st);
      var upOrDown := if status == "running" then "UP" else "DOWN";
      var metrics := if status == "running" then RunningMetrics(c.stats)
                     else Success(Metrics(0.0, 0.0, 0.0));
      match metrics
      case Failure(e) => Failed(shortId, c.name, "ERROR", e)
      case Success(m) =>
        match c.image
        case Failure(e) => Failed(shortId, c.name, "ERROR", e)
        case Success(tags) =>
          Report(shortId, c.name, tags, status, upOrDown, m.cpuPercent, m.memoryUsageMb,
                 m.memoryLimitMb, st.restartCount.GetOr(0), c.ports)
  }

  /** The stats of a container that is not running are never asked: its entry ignores them. */
  lemma StoppedIgnoresStats(c: Sample, other: Result<Stats>)
    requires !IsRunning(c)
    ensures SampleEntry(c.(stats := other)) == SampleEntry(c)
  {
  }

  /**
   * A running container whose stats reply lacks a memory key gives an error entry naming the
   * first key that is read and not found: `memory_stats`, then `usage`, then `limit`.
   */
  lemma MissingMemoryKeyIsReported(c: Sample)
    requires IsRunning(c) && c.stats.Success? && !MemoryKeysPresent(c.stats.value)
    ensures SampleEntry(c).Failed?
    ensures c.stats.value.memoryStats.None? ==> SampleEntry(c).error == MissingMemoryStats
    ensures c.stats.value.memoryStats.Some? && c.stats.value.memoryStats.value.usage.None? ==>
              SampleEntry(c).error == MissingUsage
    ensures (c.stats.value.memoryStats.Some? && c.stats.value.memoryStats.value.usage.Some?
             && c.stats.value.memoryStats.value.limit.None?) ==> SampleEntry(c).error == MissingLimit
  {
  }
}
