/** The memory ceiling (omlx/process_memory_enforcer.py): what it is made of, how it is lowered by a
    video lease, and how usage is classified against it. */
module Limits {
  import opened Common

  datatype Level = Ok | Soft | Hard

  /** The measurements behind one ceiling. */
  datatype Readings = Readings(
    static_: int, omlx: int, reclaimable: int, worker: int, metal: int,
    baseline: int, external: int, externalBaseline: int)

  /** Reclaimable memory; the bound video worker's footprint, up to the lease, is added back. */
  function DynamicCeiling(r: Readings, lease: int, bound: bool, custom: Option<int>): int {
    if custom.Some? then Max(0, custom.value)
    else Max(0, r.omlx + (if bound && lease > 0 && r.worker > 0 then Min(r.worker, lease) else 0) + r.reclaimable)
  }

  /** Startup ceiling less the growth of other processes; 0 when there is no usable measurement. */
  function ExternalCeiling(r: Readings): int {
    if r.baseline <= 0 || r.external <= 0 then 0
    else Max(0, r.baseline - Max(0, r.external - r.externalBaseline))
  }

  function HardLimit(guard: bool, lease: int, bound: bool, custom: Option<int>, r: Readings): int {
    if !guard then 0
    else
      var m := Min(r.static_, DynamicCeiling(r, lease, bound, custom));
      var m' := if r.metal > 0 then Min(m, r.metal) else m;
      var m'' := if ExternalCeiling(r) > 0 then Min(m', ExternalCeiling(r)) else m';
      if lease > 0 then Max(1, m'' - lease) else m''
  }

  /** Memory that could be had: what the user set, or what the process has and what could be reclaimed. */
  function Available(custom: Option<int>, r: Readings): int { if custom.Some? then custom.value else r.omlx + r.reclaimable }

  /** How much other processes have grown since startup. */
  function Growth(r: Readings): nat { Max(0, r.external - r.externalBaseline) }

  /** Without a lease the ceiling is the least of the limits that apply: the static one, the available
      memory or nothing, the limit of the GPU if it has one, and, if it was measured and is not used up,
      the startup ceiling less the growth of other processes. */
  lemma CeilingIsLeast(bound: bool, custom: Option<int>, r: Readings, b: int)
    ensures b <= HardLimit(true, 0, bound, custom, r) <==>
      && b <= r.static_ && (b <= 0 || b <= Available(custom, r)) && (r.metal > 0 ==> b <= r.metal)
      && (r.baseline > 0 && r.external > 0 && Growth(r) < r.baseline ==> b <= r.baseline - Growth(r))
  {
  }

  /** A ceiling of zero means that there is no limit. The guard is on and yet reads as off exactly
      when no lease is held and the static ceiling or the available memory is down to zero. */
  lemma GuardReadsAsOff(lease: int, bound: bool, custom: Option<int>, r: Readings)
    requires r.static_ >= 0
    ensures HardLimit(true, lease, bound, custom, r) <= 0 <==> lease <= 0 && (r.static_ == 0 || Available(custom, r) <= 0)
  {
  }

  /** The ceiling follows the growth of other processes down to zero, but not beyond: once they have
      grown by the whole startup ceiling, that limit is taken for a failed measurement and dropped. */
  lemma GrowthIsCharged(bound: bool, custom: Option<int>, r: Readings)
    requires r.static_ >= 0 && r.baseline > 0 && r.external > 0
    ensures HardLimit(true, 0, bound, custom, r) <= Max(0, r.baseline - Growth(r)) <==>
        Growth(r) < r.baseline || r.static_ == 0 || Available(custom, r) <= 0
  {
  }

  /** A held lease lowers the ceiling but never to the value that means "no limit", and the memory
      the worker really takes, up to the lease, is not charged a second time. */
  lemma LeaseIsChargedOnce(lease: int, custom: Option<int>, r: Readings, taken: nat)
    requires 0 < lease && taken <= lease && r.worker == 0
    ensures HardLimit(true, lease, true, custom, r) >= 1
    ensures HardLimit(true, lease, true, custom, r.(worker := taken, reclaimable := r.reclaimable - taken))
         == HardLimit(true, lease, true, custom, r)
         == Max(1, HardLimit(true, 0, false, custom, r) - lease)
  {
  }

  function Threshold(ceiling: int, ratio: real): int {
    if ceiling > 0 then (ceiling as real * ratio).Floor else 0
  }

  function Classify(current: int, soft: int, hard: int): Level {
    if current < soft then Ok else if current < hard then Soft else Hard
  }

  /** Usage has not reached this share of the ceiling, rounded down to whole bytes. */
  predicate Below(usage: int, ceiling: int, share: real) { (usage + 1) as real <= ceiling as real * share }

  /** The level a reading calls for: pressure only under a ceiling, from the soft mark on; and hard where
      the hard mark is reached as well. */
  predicate Warranted(level: Level, usage: int, ceiling: int, soft: real, hard: real) {
    && (level == Ok <==> ceiling <= 0 || Below(usage, ceiling, soft))
    && (level == Hard <==> ceiling > 0 && !Below(usage, ceiling, soft) && !Below(usage, ceiling, hard))
  }

  lemma FloorIsBelow(usage: int, mark: real)
    ensures usage < mark.Floor <==> (usage + 1) as real <= mark
  {
  }

  lemma ClassifiedAsWarranted(usage: int, ceiling: int, soft: real, hard: real)
    requires ceiling > 0
    ensures Warranted(Classify(usage, Threshold(ceiling, soft), Threshold(ceiling, hard)), usage, ceiling, soft, hard)
  {
    FloorIsBelow(usage, ceiling as real * soft);
    FloorIsBelow(usage, ceiling as real * hard);
  }

  function Severity(level: Level): nat { match level case Ok => 0 case Soft => 1 case Hard => 2 }

  /** More usage under the same ceiling never calls for a lower level. */
  lemma MoreUsageIsNoMilder(a: Level, b: Level, low: int, high: int, ceiling: int, soft: real, hard: real)
    requires Warranted(a, low, ceiling, soft, hard) && Warranted(b, high, ceiling, soft, hard) && low <= high
    ensures Severity(a) <= Severity(b)
  {
  }
}
