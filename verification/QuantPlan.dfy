/** The byte-budgeted planner (omlx/oq.py, _build_quant_plan). The five passes are first given as
    functions on a ledger; PlanProofs proves what they guarantee and BuildQuantPlan runs them. */
module QuantPlan {
  import opened Common
  import opened QuantNames
  import opened QuantCost

  /** What the passes read about one weight tensor. */
  datatype Item = Item(
    tensor: Tensor,
    skip: bool,
    mandatory: bool,
    routed: bool,
    down: bool,
    floor: Option<Quant>,
    layer: Option<nat>,
    score: real)

  /** Fixed inputs of one run; cap is the hard cap in bits for the whole model. */
  datatype Job = Job(base: Quant, experts35: bool, maxScore: real, cap: real)

  /** The boost map with the running total of bits. */
  datatype Ledger = Ledger(boosts: map<string, Quant>, bits: int)

  function Standard(bits: nat): Quant { Affinely(bits, GROUP) }

  function Delta(shape: seq<nat>, from: Quant, to: Quant): int { Cost(shape, to) - Cost(shape, from) }

  predicate Fits(bits: int, cap: real) { bits as real <= cap }

  function Describe(t: Tensor, cfg: Config, level: Level): Item {
    var rule := UniversalRule(t.path, cfg.(boosts := map[]), level);
    var floor := UniversalRule(t.path, cfg.(boosts := map[], budgetPlan := false), level);
    var layer := LayerIndex(t.path);
    Item(t, rule.Skip?, IsMandatory(t.path), IsRoutedExpert(t.path), IsDownProjection(t.path),
         if floor.Use? then Some(floor.quant) else None,
         layer,
         if layer.Some? && layer.value in cfg.scores then cfg.scores[layer.value] else 0.0)
  }

  // ---------- the three placing passes ----------

  datatype Pass = MandatoryPass | ExpertPass | FloorPass

  /** The boost a pass wants for a tensor, if any. */
  function Offer(p: Pass, it: Item, job: Job): Option<Quant> {
    match p
    case MandatoryPass =>
      if !it.skip && it.mandatory && job.base.bits < 8 then Some(Standard(8)) else None
    case ExpertPass =>
      if job.experts35 && it.routed && it.down then Some(Standard(job.base.bits + 1)) else None
    case FloorPass =>
      if !it.routed && it.floor.Some? && job.base.bits < it.floor.value.bits then it.floor else None
  }

  function Place(p: Pass, it: Item, job: Job, led: Ledger): Ledger {
    match Offer(p, it, job)
    case None => led
    case Some(q) =>
      var delta := Delta(it.tensor.shape, job.base, q);
      if it.tensor.path !in led.boosts && delta > 0 && (p.ExpertPass? || Fits(led.bits + delta, job.cap))
      then Ledger(led.boosts[it.tensor.path := q], led.bits + delta)
      else led
  }

  function PlaceAll(p: Pass, its: seq<Item>, job: Job, led: Ledger): Ledger {
    if its == [] then led else PlaceAll(p, its[1..], job, Place(p, its[0], job, led))
  }

  // ---------- the two greedy passes ----------

  /** A tensor that may be raised from cur bits up to top bits. */
  datatype Cand = Cand(score: real, tensor: Tensor, cur: nat, top: nat)

  /** Raising c to w costs something and fits beside the bits already spent. */
  predicate Admissible(c: Cand, w: nat, bits: int, cap: real) {
    var delta := Delta(c.tensor.shape, Standard(c.cur), Standard(w));
    c.cur < w && ValidBits(w) && delta > 0 && Fits(bits + delta, cap)
  }

  /** The widest admissible width up to w. */
  function Widest(c: Cand, w: nat, bits: int, cap: real): (r: Option<nat>)
    ensures r.Some? ==> r.value <= w && Admissible(c, r.value, bits, cap)
    ensures forall v: nat :: v <= w && (r.Some? ==> r.value < v) ==> !Admissible(c, v, bits, cap)
  {
    if w <= c.cur then None
    else if Admissible(c, w, bits, cap) then Some(w)
    else Widest(c, w - 1, bits, cap)
  }

  function Raise(c: Cand, job: Job, led: Ledger): Ledger {
    match Widest(c, c.top, led.bits, job.cap)
    case None => led
    case Some(w) =>
      Ledger(led.boosts[c.tensor.path := Standard(w)],
             led.bits + Delta(c.tensor.shape, Standard(c.cur), Standard(w)))
  }

  predicate Reached(bits: int, goal: Option<real>) { goal.Some? && goal.value <= bits as real }

  /** Raises candidates in turn; stops as soon as the goal, if there is one, is reached. */
  function Greedy(cs: seq<Cand>, job: Job, led: Ledger, goal: Option<real>): Ledger {
    if cs == [] || Reached(led.bits, goal) then led
    else Greedy(cs[1..], job, Raise(cs[0], job, led), goal)
  }

  function TopFor(cur: nat, score: real, maxScore: real): nat {
    var ratio := if maxScore > 0.0 then score / maxScore else 0.0;
    if ratio >= 0.5 then 8
    else
      var step := if ratio >= 0.2 then cur + 2 else cur + 1;
      if step < 8 then step else 8
  }

  function SensitivityCand(it: Item, job: Job, led: Ledger): Option<Cand> {
    if it.routed || it.skip || it.layer.None? then None
    else
      var cur := Chosen(led.boosts, it.tensor.path, job.base).bits;
      var top := TopFor(cur, it.score, job.maxScore);
      if top <= cur then None else Some(Cand(it.score, it.tensor, cur, top))
  }

  function FallbackCand(it: Item, job: Job, led: Ledger): Option<Cand> {
    if it.routed || it.tensor.path !in led.boosts || led.boosts[it.tensor.path].bits >= 8 then None
    else Some(Cand(it.score, it.tensor, led.boosts[it.tensor.path].bits, 8))
  }

  function Candidates(sensitivity: bool, its: seq<Item>, job: Job, led: Ledger): seq<Cand> {
    if its == [] then []
    else
      var c := if sensitivity then SensitivityCand(its[0], job, led) else FallbackCand(its[0], job, led);
      var rest := Candidates(sensitivity, its[1..], job, led);
      if c.Some? then [c.value] + rest else rest
  }

  function Insert(c: Cand, cs: seq<Cand>): (r: seq<Cand>) {
    if cs == [] || cs[0].score <= c.score then [c] + cs else [cs[0]] + Insert(c, cs[1..])
  }

  /** sorted(key=score, reverse=True): descending, ties in their original order. */
  function Ranked(cs: seq<Cand>): seq<Cand> {
    if cs == [] then [] else Insert(cs[0], Ranked(cs[1..]))
  }

  // ---------- the whole plan ----------

  function Tensors(its: seq<Item>): (ts: seq<Tensor>)
    ensures |ts| == |its| && forall i :: 0 <= i < |its| ==> ts[i] == its[i].tensor
  {
    seq(|its|, i requires 0 <= i < |its| => its[i].tensor)
  }

  function Empty(its: seq<Item>, job: Job): Ledger { Ledger(map[], TotalBits(Tensors(its), job.base, map[])) }

  function AfterMandatory(its: seq<Item>, job: Job): Ledger {
    PlaceAll(MandatoryPass, its, job, Empty(its, job))
  }

  function AfterExperts(its: seq<Item>, job: Job): Ledger {
    PlaceAll(ExpertPass, its, job, AfterMandatory(its, job))
  }

  function AfterFloor(its: seq<Item>, job: Job): Ledger {
    PlaceAll(FloorPass, its, job, AfterExperts(its, job))
  }

  function SensitivityOrder(its: seq<Item>, job: Job): seq<Cand> {
    Ranked(Candidates(true, its, job, AfterFloor(its, job)))
  }

  function AfterSensitivity(its: seq<Item>, job: Job): Ledger {
    Greedy(SensitivityOrder(its, job), job, AfterFloor(its, job), None)
  }

  function FallbackOrder(its: seq<Item>, job: Job): seq<Cand> {
    Ranked(Candidates(false, its, job, AfterSensitivity(its, job)))
  }

  function Plan(its: seq<Item>, job: Job, goal: real): Ledger {
    Greedy(FallbackOrder(its, job), job, AfterSensitivity(its, job), Some(goal))
  }
}
