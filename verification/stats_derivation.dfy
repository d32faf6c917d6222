/** Derivation of a container's CPU and memory figures from one daemon
    statistics snapshot (current and previous CPU samples, memory accounting). */
module StatsDerivation {
  import opened Envelopes
  import opened DaemonApi

  /** Bytes per mebibyte (1024 * 1024). */
  const MiB: nat := 1048576

  /** The derived figures reported to callers. */
  datatype ContainerStats = ContainerStats(cpuPercent: real, memPercent: real, memUsageMB: real, memLimitMB: real)

  /** A sample with every field missing, what `stats.cpu_stats || {}` yields. */
  const EmptySample: CpuStats := CpuStats(None, None, None)

  /** A counter read with `x || 0`: a missing counter reads as 0. */
  function OrZero(x: Option<nat>): (n: nat)
    ensures x.Some? ==> n == x.value
    ensures x.None? ==> n == 0
  {
    x.Or(0)
  }

  function SampleOf(x: Option<CpuStats>): CpuStats {
    x.Or(EmptySample)
  }

  function TotalUsage(c: CpuStats): nat {
    match c.cpuUsage
    case Some(u) => OrZero(u.totalUsage)
    case None => 0
  }

  function SystemUsage(c: CpuStats): nat {
    OrZero(c.systemCpuUsage)
  }

  /** The per-core usage list, when the sample has one. */
  function PercpuUsage(c: CpuStats): Option<seq<nat>> {
    match c.cpuUsage
    case Some(u) => u.percpuUsage
    case None => None
  }

  /** `online_cpus || (percpu_usage ? percpu_usage.length : 1)`: a zero
      `online_cpus` counts as missing; a present per-core list, even an empty
      one, supplies its length. */
  function CpuCount(c: CpuStats): (n: nat)
    ensures c.onlineCpus.Some? && c.onlineCpus.value != 0 ==> n == c.onlineCpus.value
    ensures OrZero(c.onlineCpus) == 0 && PercpuUsage(c).Some? ==> n == |PercpuUsage(c).value|
    ensures OrZero(c.onlineCpus) == 0 && PercpuUsage(c).None? ==> n == 1
  {
    if OrZero(c.onlineCpus) != 0 then c.onlineCpus.value
    else match PercpuUsage(c)
      case Some(list) => |list|
      case None => 1
  }

  /** Container CPU time consumed between the two samples (may be negative
      when a counter was reset). */
  function CpuDelta(cur: CpuStats, pre: CpuStats): int {
    TotalUsage(cur) - TotalUsage(pre)
  }

  /** System CPU time elapsed between the two samples. */
  function SystemDelta(cur: CpuStats, pre: CpuStats): int {
    SystemUsage(cur) - SystemUsage(pre)
  }

  /** The guard under which the CPU share is computed at all. */
  predicate CpuWindowValid(cur: CpuStats, pre: CpuStats) {
    SystemDelta(cur, pre) > 0 && CpuDelta(cur, pre) > 0
  }

  /** CPU percentage: 0 unless both deltas are positive; otherwise the
      container's share of system time, scaled by the core count and by 100. */
  function CpuPercent(cur: CpuStats, pre: CpuStats): (p: real)
    ensures p >= 0.0
    ensures !CpuWindowValid(cur, pre) ==> p == 0.0
    ensures CpuWindowValid(cur, pre) && CpuCount(cur) > 0 ==> p > 0.0
  {
    var cpuDelta := CpuDelta(cur, pre);
    var systemDelta := SystemDelta(cur, pre);
    if systemDelta > 0 && cpuDelta > 0 then
      (cpuDelta as real / systemDelta as real) * (CpuCount(cur) as real) * 100.0
    else
      0.0
  }

  /** Memory percentage: 0 for a zero or missing limit, else usage over limit times 100. */
  function MemPercent(usage: nat, limit: nat): (p: real)
    ensures p >= 0.0
    ensures limit == 0 ==> p == 0.0
    ensures limit > 0 ==> p * (limit as real) == (usage * 100) as real
    ensures limit > 0 && usage <= limit ==> p <= 100.0
  {
    if limit > 0 then (usage as real / limit as real) * 100.0 else 0.0
  }

  /** Bytes expressed in mebibytes. */
  function ToMiB(bytes: nat): (mb: real)
    ensures mb >= 0.0
    ensures mb * (MiB as real) == bytes as real
  {
    bytes as real / MiB as real
  }

  /** The full derivation of `getContainerStats`. */
  function Derive(s: StatsSnapshot): (r: ContainerStats)
    ensures r.cpuPercent == CpuPercent(SampleOf(s.cpuStats), SampleOf(s.precpuStats))
    ensures var mem := s.memoryStats.Or(MemoryStats(None, None));
      && r.memUsageMB * (MiB as real) == OrZero(mem.usage) as real
      && r.memLimitMB * (MiB as real) == OrZero(mem.limit) as real
      && r.memPercent == MemPercent(OrZero(mem.usage), OrZero(mem.limit))
    ensures r.cpuPercent >= 0.0 && r.memPercent >= 0.0
    ensures r.memLimitMB > 0.0 ==> r.memPercent == r.memUsageMB / r.memLimitMB * 100.0
    ensures r.memLimitMB == 0.0 ==> r.memPercent == 0.0
  {
    var mem := s.memoryStats.Or(MemoryStats(None, None));
    var usage := OrZero(mem.usage);
    var limit := OrZero(mem.limit);
    var cpu := CpuPercent(SampleOf(s.cpuStats), SampleOf(s.precpuStats));
    var memPct := MemPercent(usage, limit);
    var usageMB := ToMiB(usage);
    var limitMB := ToMiB(limit);
    MemPercentInMiB(usage, limit);
    ContainerStats(cpu, memPct, usageMB, limitMB)
  }

  /** The memory percentage is unchanged when both figures are read in mebibytes. */
  lemma MemPercentInMiB(usage: nat, limit: nat)
    ensures limit > 0 ==> MemPercent(usage, limit) == ToMiB(usage) / ToMiB(limit) * 100.0
  {
  }

  /** Within a valid window the percentage is the container's share of system
      time scaled by cores and 100: percent times system delta gives back the
      container delta times cores times 100. */
  lemma CpuPercentShare(cur: CpuStats, pre: CpuStats)
    requires CpuWindowValid(cur, pre)
    ensures CpuPercent(cur, pre) * (SystemDelta(cur, pre) as real)
      == (CpuDelta(cur, pre) as real) * (CpuCount(cur) as real) * 100.0
  {
  }

  /** When the container used no more CPU time than the system did, the
      percentage is at most 100 per core. */
  lemma CpuPercentAtMostCores(cur: CpuStats, pre: CpuStats)
    requires CpuDelta(cur, pre) <= SystemDelta(cur, pre)
    ensures CpuPercent(cur, pre) <= (CpuCount(cur) as real) * 100.0
  {
    if CpuWindowValid(cur, pre) {
      var d := CpuDelta(cur, pre) as real;
      var s := SystemDelta(cur, pre) as real;
      var c := CpuCount(cur) as real;
      var p := CpuPercent(cur, pre);
      assert p == (d / s) * c * 100.0;
      ShareAtMostWhole(p, d, s, c);
    } else {
      assert CpuPercent(cur, pre) == 0.0;
    }
  }

  /** A share `d / s` of at most 1, scaled by `c` cores and 100, stays within `c * 100`. */
  lemma ShareAtMostWhole(p: real, d: real, s: real, c: real)
    requires 0.0 < d <= s && 0.0 <= c
    requires p == (d / s) * c * 100.0
    ensures p <= c * 100.0
  {
  }

  /** A zero (or negative) system delta reports 0, whatever the container delta. */
  lemma NoSystemTimeMeansZeroCpu(cur: CpuStats, pre: CpuStats)
    requires SystemDelta(cur, pre) <= 0
    ensures CpuPercent(cur, pre) == 0.0
  {
  }

  /** Worked example: container delta 1000, system delta 10000, two cores -> 20%. */
  lemma CpuPercentExample()
    ensures CpuPercent(
      CpuStats(Some(CpuUsage(Some(3000), None)), Some(30000), Some(2)),
      CpuStats(Some(CpuUsage(Some(2000), None)), Some(20000), Some(4))) == 20.0
  {
  }
}
