/**
 * The CPU usage percentage of one container, derived from two cumulative counter samples
 * of a Docker stats reply: the current `cpu_stats` and the previous `precpu_stats`.
 */
module CpuPercent {
  import opened Wrappers

  // The parts of a Docker stats reply that the service looks at. Every dictionary key the
  // service indexes may be missing from the reply, so each one is an Option.

  /** `cpu_usage`: the container's cumulative CPU time, overall and per core. */
  datatype CpuUsage = CpuUsage(totalUsage: Option<int>, percpuUsage: Option<seq<int>>)

  /** `cpu_stats` / `precpu_stats`: one sample of the container and host counters. */
  datatype CpuStats = CpuStats(cpuUsage: Option<CpuUsage>, systemCpuUsage: Option<int>)

  /** `memory_stats`: current usage and limit, in bytes. */
  datatype MemoryStats = MemoryStats(usage: Option<int>, limit: Option<int>)

  /** One stats reply. */
  datatype Stats = Stats(cpuStats: Option<CpuStats>, precpuStats: Option<CpuStats>,
                         memoryStats: Option<MemoryStats>)

  /** `sample["cpu_usage"]["total_usage"]`, or None when either key is missing. */
  function TotalUsage(sample: Option<CpuStats>): Option<int> {
    if sample.Some? && sample.value.cpuUsage.Some? then sample.value.cpuUsage.value.totalUsage
    else None
  }

  /** `sample["system_cpu_usage"]`, or None when a key is missing. */
  function SystemUsage(sample: Option<CpuStats>): Option<int> {
    if sample.Some? then sample.value.systemCpuUsage else None
  }

  /** Growth of the container's CPU time between the two samples (`cpu_delta`). */
  function CpuDelta(stats: Stats): Option<int> {
    var now, before := TotalUsage(stats.cpuStats), TotalUsage(stats.precpuStats);
    if now.Some? && before.Some? then Some(now.value - before.value) else None
  }

  /** Growth of the host's CPU time between the two samples (`system_delta`). */
  function SystemDelta(stats: Stats): Option<int> {
    var now, before := SystemUsage(stats.cpuStats), SystemUsage(stats.precpuStats);
    if now.Some? && before.Some? then Some(now.value - before.value) else None
  }

  /** Number of per-core counters (`cpu_count`); a missing `percpu_usage` list counts as empty. */
  function CpuCount(stats: Stats): nat {
    if stats.cpuStats.Some? && stats.cpuStats.value.cpuUsage.Some?
    then |stats.cpuStats.value.cpuUsage.value.percpuUsage.GetOr([])|
    else 0
  }

  /** Both deltas can be computed and the host counter advanced: the only case with a non-zero result. */
  predicate Measurable(stats: Stats) {
    CpuDelta(stats).Some? && SystemDelta(stats).Some? && SystemDelta(stats).value > 0
  }

  /**
   * `calculate_cpu_percent`: `(cpu_delta / system_delta) * cpu_count * 100`, and 0 when a key is
   * missing or the host counter did not advance. The result is exact; it is not rounded.
   */
  function CalculateCpuPercent(stats: Stats): (r: real)
    ensures SystemDelta(stats).None? || SystemDelta(stats).value <= 0 ==> r == 0.0
    ensures CpuDelta(stats).None? ==> r == 0.0
    ensures CpuCount(stats) == 0 ==> r == 0.0
    ensures r > 0.0 <==> Measurable(stats) && CpuCount(stats) > 0 && CpuDelta(stats).value > 0
    ensures r < 0.0 <==> Measurable(stats) && CpuCount(stats) > 0 && CpuDelta(stats).value < 0
  {
    if Measurable(stats) then
      var cpuDelta, systemDelta := CpuDelta(stats).value as real, SystemDelta(stats).value as real;
      (cpuDelta / systemDelta) * (CpuCount(stats) as real) * 100.0
    else
      0.0
  }

  /**
   * When the result is defined it is the container's share of the host CPU time, scaled by the
   * number of cores: `r * system_delta == cpu_delta * cpu_count * 100`.
   */
  lemma CpuPercentIsShareOfHostTime(stats: Stats)
    requires Measurable(stats)
    ensures CalculateCpuPercent(stats) * (SystemDelta(stats).value as real)
            == (CpuDelta(stats).value * CpuCount(stats) * 100) as real
  {
  }

  /** A reply with the given counters and per-core list; used by the worked examples below. */
  function Reply(total: int, preTotal: int, system: int, preSystem: int, cores: nat): Stats {
    Stats(Some(CpuStats(Some(CpuUsage(Some(total), Some(seq(cores, _ => 0)))), Some(system))),
          Some(CpuStats(Some(CpuUsage(Some(preTotal), None)), Some(preSystem))),
          None)
  }

  /** Counters that did not move give 0: total 100 -> 100, system 500 -> 500. */
  lemma UnchangedCountersGiveZero()
    ensures CalculateCpuPercent(Reply(100, 100, 500, 500, 4)) == 0.0
  {
  }

  /** A container that used 20 of 100 host ticks on a 4-core host is at 80 percent. */
  lemma FourCoreExample()
    ensures CalculateCpuPercent(Reply(120, 100, 600, 500, 4)) == 80.0
  {
  }

  /** A counter that went backwards (a restarted container) gives a negative percentage: no clamp. */
  lemma BackwardsCounterIsNotClamped()
    ensures CalculateCpuPercent(Reply(90, 100, 600, 500, 1)) == -10.0
  {
  }

  /** A first sample, whose `precpu_stats` holds no counters, gives 0 instead of raising. */
  lemma FirstSampleGivesZero(total: int, system: int, cores: nat)
    ensures CalculateCpuPercent(
              Stats(Some(CpuStats(Some(CpuUsage(Some(total), Some(seq(cores, _ => 1)))), Some(system))),
                    Some(CpuStats(None, None)), None)) == 0.0
  {
  }
}
