/** The hardware service: the utilisation flags and advice `create` sets
    before saving a machine, and the hardware analytics. */
module HardwareService {
  import opened Common
  import opened Seqs
  import opened Grouping
  import opened Repositories

  datatype HardwareType = Server | Workstation | Laptop | NetworkDevice | StorageDevice

  /** A row of the `hardware` table, with the columns the service reads or
      writes. Schema defaults: utilisations 0, both flags false, no advice.
      Make, model, dates, costs and assignment columns are descriptive and
      not kept. */
  datatype Hardware = Hardware(
    id: string,
    name: string,
    hardwareType: HardwareType,
    cpuUtilization: real,
    memoryUtilization: real,
    diskUtilization: real,
    isUnderutilized: bool,
    isOverutilized: bool,
    optimizationSuggestion: Option<string>)

  const ConsolidateAdvice: string := "Consider consolidating workloads or downsizing"
  const UpgradeAdvice: string := "Consider upgrading or load balancing"

  /** CPU or memory below 30%. */
  predicate LowLoad(h: Hardware)
  {
    h.cpuUtilization < 30.0 || h.memoryUtilization < 30.0
  }

  /** CPU or memory above 85%. */
  predicate HighLoad(h: Hardware)
  {
    h.cpuUtilization > 85.0 || h.memoryUtilization > 85.0
  }

  /** The record `create` saves for a request: the two rules applied in
      turn, the second one's advice overwriting the first's. */
  function Marked(input: Hardware): Hardware
  {
    var afterLow :=
      if LowLoad(input) then input.(isUnderutilized := true, optimizationSuggestion := Some(ConsolidateAdvice))
      else input;
    if HighLoad(input) then afterLow.(isOverutilized := true, optimizationSuggestion := Some(UpgradeAdvice))
    else afterLow
  }

  /** The two `if`s of `create`. A flag is only ever set, never cleared; the
      advice follows the last rule that fired; nothing else is written. */
  method MarkUtilization(input: Hardware) returns (hardware: Hardware)
    ensures hardware.isUnderutilized <==> input.isUnderutilized || LowLoad(input)
    ensures hardware.isOverutilized <==> input.isOverutilized || HighLoad(input)
    ensures hardware.optimizationSuggestion
      == if HighLoad(input) then Some(UpgradeAdvice)
         else if LowLoad(input) then Some(ConsolidateAdvice)
         else input.optimizationSuggestion
    ensures hardware.(isUnderutilized := input.isUnderutilized, isOverutilized := input.isOverutilized,
                      optimizationSuggestion := input.optimizationSuggestion) == input
    ensures hardware == Marked(input)
  {
    hardware := input;
    if hardware.cpuUtilization < 30.0 || hardware.memoryUtilization < 30.0 {
      hardware := hardware.(isUnderutilized := true);
      hardware := hardware.(optimizationSuggestion := Some(ConsolidateAdvice));
    }
    if hardware.cpuUtilization > 85.0 || hardware.memoryUtilization > 85.0 {
      hardware := hardware.(isOverutilized := true);
      hardware := hardware.(optimizationSuggestion := Some(UpgradeAdvice));
    }
  }

  /** `create`: marks the machine and saves it. */
  method Create(repo: Repository<Hardware>, input: Hardware) returns (saved: Hardware)
    modifies repo
    ensures saved == Marked(input)
    ensures repo.rows == old(repo.rows) + [saved]
  {
    saved := MarkUtilization(input);
    repo.Save(saved);
  }

  /** Both thresholds are strict: CPU and memory within [30, 85] leave the
      record as it was, whatever the disk utilisation. */
  lemma {:induction false} ModerateLoadUnchanged(h: Hardware)
    requires 30.0 <= h.cpuUtilization <= 85.0 && 30.0 <= h.memoryUtilization <= 85.0
    ensures Marked(h) == h
  {
  }

  /** The disk utilisation plays no part in either rule. */
  lemma {:induction false} DiskIgnored(h: Hardware, disk: real)
    ensures Marked(h.(diskUtilization := disk)) == Marked(h).(diskUtilization := disk)
  {
  }

  /** A machine idle on one resource and saturated on the other gets both
      flags, and the upgrade advice replaces the consolidation advice. */
  lemma {:induction false} BothFlagsUpgradeAdvice(h: Hardware)
    requires LowLoad(h) && HighLoad(h)
    ensures Marked(h).isUnderutilized && Marked(h).isOverutilized
    ensures Marked(h).optimizationSuggestion == Some(UpgradeAdvice)
  {
  }

  /** Marking a marked record changes nothing more. */
  lemma {:induction false} MarkIdempotent(h: Hardware)
    ensures Marked(Marked(h)) == Marked(h)
  {
  }

  // ---- analytics ------------------------------------------------------------

  datatype HardwareSummary = HardwareSummary(
    totalHardware: nat,
    averageCpuUtilization: real,
    averageMemoryUtilization: real,
    underutilized: nat,
    overutilized: nat)

  datatype HardwareAnalytics = HardwareAnalytics(
    summary: HardwareSummary,
    byType: seq<KeyCount<HardwareType>>)

  function Cpu(h: Hardware): real { h.cpuUtilization }
  function Memory(h: Hardware): real { h.memoryUtilization }
  function IsUnder(h: Hardware): bool { h.isUnderutilized }
  function IsOver(h: Hardware): bool { h.isOverutilized }
  function TypeOf(h: Hardware): HardwareType { h.hardwareType }

  /** `getAnalytics`. The averages divide by the number of machines without
      a guard, so the list must not be empty. */
  function GetAnalytics(hardware: seq<Hardware>): (a: HardwareAnalytics)
    requires |hardware| > 0
    ensures a.summary.totalHardware == |hardware| == Counted(a.byType)
    ensures a.summary.averageCpuUtilization == Mean(hardware, Cpu)
    ensures a.summary.averageMemoryUtilization == Mean(hardware, Memory)
    ensures a.summary.underutilized == Count(hardware, IsUnder) <= |hardware|
    ensures a.summary.overutilized == Count(hardware, IsOver) <= |hardware|
    ensures DistinctKeys(a.byType)
    ensures forall t :: CountFor(a.byType, t) == Count(hardware, HasKey(TypeOf, t))
  {
    HardwareAnalytics(
      HardwareSummary(
        |hardware|, Mean(hardware, Cpu), Mean(hardware, Memory),
        Count(hardware, IsUnder), Count(hardware, IsOver)),
      Tally(hardware, TypeOf))
  }

  /** With every utilisation a percentage, so are the averages. */
  lemma {:induction false} AveragesArePercentages(hardware: seq<Hardware>)
    requires |hardware| > 0
    requires forall h :: h in hardware ==> 0.0 <= h.cpuUtilization <= 100.0 && 0.0 <= h.memoryUtilization <= 100.0
    ensures 0.0 <= GetAnalytics(hardware).summary.averageCpuUtilization <= 100.0
    ensures 0.0 <= GetAnalytics(hardware).summary.averageMemoryUtilization <= 100.0
  {
    MeanBounds(hardware, Cpu, 0.0, 100.0);
    MeanBounds(hardware, Memory, 0.0, 100.0);
  }
}
