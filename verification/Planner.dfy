/** The planner as it runs, and what a caller may rely on. */
module Planner {
  import opened Common
  import opened QuantNames
  import opened QuantCost
  import opened QuantPlan
  import opened PlanProofs
  import opened PlanTheorems
  import opened PlanLedger

  datatype Outcome =
    | Planned(boosts: map<string, Quant>, effectiveBpw: real, targetBpw: real, hardCapBpw: real)
    | DivisionByZero

  lemma {:induction false} HasMax(keys: set<nat>, scores: map<nat, real>)
    requires keys != {} && keys <= scores.Keys
    ensures exists k :: k in keys && forall j <- keys :: scores[j] <= scores[k]
    decreases keys
  {
    var x :| x in keys;
    var rest := keys - {x};
    var best := x;
    if rest != {} {
      HasMax(rest, scores);
      var k :| k in rest && forall j <- rest :: scores[j] <= scores[k];
      if scores[x] < scores[k] { best := k; }
    }
    forall j | j in keys ensures scores[j] <= scores[best] {
      assert j == x || j in rest;
    }
  }

  ghost function MaxScore(scores: map<nat, real>): real {
    if scores == map[] then 0.0
    else
      HasMax(scores.Keys, scores);
      var k :| k in scores && forall j <- scores :: scores[j] <= scores[k];
      scores[k]
  }

  /** Target and hard cap of a level, in bits per weight, where the program sets them. */
  function BpwTargets(level: Level): Option<(real, real)> {
    match level
    case L2 => Some((2.8, 3.0))
    case L3 => Some((3.5, 3.7))
    case L3_5 => Some((3.8, 4.0))
    case L4 => Some((4.6, 4.7))
    case L5 => Some((5.5, 5.7))
    case L6 => Some((6.5, 6.7))
    case L8 => None
  }

  function DescribeAll(ts: seq<Tensor>, cfg: Config, level: Level): (its: seq<Item>)
    ensures |its| == |ts| && Tensors(its) == ts
  {
    seq(|ts|, i requires 0 <= i < |ts| => Describe(ts[i], cfg, level))
  }

  /** A total in bits, from a figure per weight. */
  function Total(bpw: real, params: nat): real { bpw * params as real }

  ghost function JobFor(ts: seq<Tensor>, cfg: Config, level: Level, hardCap: real): Job {
    Job(Standard(BaseBits(level)), level == L3_5, MaxScore(cfg.scores), Total(hardCap, TotalParams(ts)))
  }

  method HighestScore(scores: map<nat, real>) returns (m: real)
    ensures m == MaxScore(scores)
  {
    if scores == map[] { return 0.0; }
    var todo := scores.Keys;
    var first :| first in todo;
    m := scores[first];
    todo := todo - {first};
    while todo != {}
      invariant todo <= scores.Keys && exists k :: k in scores && scores[k] == m
      invariant forall k :: k in scores && k !in todo ==> scores[k] <= m
    {
      var k :| k in todo;
      if scores[k] > m { m := scores[k]; }
      todo := todo - {k};
    }
  }

  // ---------- the passes as they run ----------

  /** bits / params; None for a division by zero. */
  method Divide(bits: int, params: nat) returns (bpw: Option<real>)
    ensures bpw == if params == 0 then None else Some(Bpw(bits, params))
  {
    if params == 0 { return None; }
    return Some(bits as real / params as real);
  }

  lemma BpwFits(bits: int, params: nat, cap: real)
    requires params > 0
    ensures Fits(bits, cap * params as real) <==> Bpw(bits, params) <= cap
  {
    var p := params as real;
    assert Bpw(bits, params) == bits as real / p;
    assert (bits as real / p) * p == bits as real;
    if bits as real / p <= cap {
      assert (bits as real / p) * p <= cap * p;
    } else {
      assert (bits as real / p) * p > cap * p;
    }
  }

  lemma BpwReaches(bits: int, params: nat, target: real)
    requires params > 0
    ensures Reached(bits, Some(target * params as real)) <==> target <= Bpw(bits, params)
  {
    var p := params as real;
    assert (bits as real / p) * p == bits as real;
    if target <= bits as real / p {
      assert target * p <= (bits as real / p) * p;
    } else {
      assert target * p > (bits as real / p) * p;
    }
  }

  /** The pass comes to compute a figure per weight for this item: the mandatory pass always does so,
      the others only for what costs more than the base. */
  predicate Divides(p: Pass, it: Item, job: Job, led: Ledger) {
    var offer := Offer(p, it, job);
    offer.Some? && it.tensor.path !in led.boosts && (p.MandatoryPass? || Delta(it.tensor.shape, job.base, offer.value) > 0)
  }

  /** One placing pass; None for a division by zero. */
  method RunPass(p: Pass, its: seq<Item>, job: Job, start: Ledger, params: nat, hardCap: real) returns (r: Option<Ledger>)
    requires params > 0 ==> job.cap == Total(hardCap, params)
    ensures r.None? <==> params == 0 && exists it <- its :: Divides(p, it, job, start)
    ensures r.Some? ==> r.value == PlaceAll(p, its, job, start) && (params == 0 ==> r.value == start)
  {
    hide Cost, Bpw, Fits;
    var led := start;
    for i := 0 to |its|
      invariant PlaceAll(p, its[i..], job, led) == PlaceAll(p, its, job, start)
      invariant params == 0 ==> led == start && forall k :: 0 <= k < i ==> !Divides(p, its[k], job, start)
    {
      assert its[i..][1..] == its[i + 1..];
      var offer := Offer(p, its[i], job);
      if offer.Some? && its[i].tensor.path !in led.boosts {
        var delta := Delta(its[i].tensor.shape, job.base, offer.value);
        if delta > 0 || p.MandatoryPass? {
          assert params == 0 ==> Divides(p, its[i], job, start);
          var next := Divide(led.bits + delta, params);
          if next.None? { return None; }
          BpwFits(led.bits + delta, params, hardCap);
          if delta > 0 && (p.ExpertPass? || next.value <= hardCap) {
            led := Ledger(led.boosts[its[i].tensor.path := offer.value], led.bits + delta);
          }
        }
      }
    }
    return Some(led);
  }

  /** Raising it costs something. */
  ghost predicate Costly(c: Cand) {
    exists w: nat :: c.cur < w <= c.top && Delta(c.tensor.shape, Standard(c.cur), Standard(w)) > 0
  }

  /** The scan over the widths of one candidate, downwards. */
  method RunRaise(c: Cand, job: Job, led: Ledger, params: nat, hardCap: real) returns (r: Option<Ledger>)
    requires params > 0 ==> job.cap == Total(hardCap, params)
    ensures r.None? ==> params == 0 && Costly(c)
    ensures r.Some? ==> r.value == Raise(c, job, led) && (params == 0 ==> r.value == led)
  {
    hide Cost, Bpw, Fits;
    var w := c.top;
    while w > c.cur
      invariant w >= 0 && Widest(c, w, led.bits, job.cap) == Widest(c, c.top, led.bits, job.cap)
    {
      if ValidBits(w) {
        var delta := Delta(c.tensor.shape, Standard(c.cur), Standard(w));
        if delta > 0 {
          assert Costly(c);
          var next := Divide(led.bits + delta, params);
          if next.None? { return None; }
          BpwFits(led.bits + delta, params, hardCap);
          if next.value <= hardCap {
            return Some(Ledger(led.boosts[c.tensor.path := Standard(w)], led.bits + delta));
          }
        }
      }
      w := w - 1;
    }
    return Some(led);
  }

  function Goal(target: Option<real>, params: nat): Option<real> {
    if target.None? then None else Some(Total(target.value, params))
  }

  /** The sensitivity and fallback loops; the latter stops when its target is reached. */
  method RunGreedy(cs: seq<Cand>, job: Job, start: Ledger, target: Option<real>, params: nat, hardCap: real)
    returns (r: Option<Ledger>)
    requires if params == 0 then start.bits >= 0 else job.cap == Total(hardCap, params)
    ensures r.None? ==> params == 0 && exists c <- cs :: Costly(c)
    ensures r.Some? ==> r.value == Greedy(cs, job, start, Goal(target, params)) && (params == 0 ==> r.value == start)
  {
    hide Raise, Costly;
    var led, goal := start, Goal(target, params);
    var i := 0;
    while i < |cs| && (target.None? || Bpw(led.bits, params) < target.value)
      invariant 0 <= i <= |cs|
      invariant Greedy(cs[i..], job, led, goal) == Greedy(cs, job, start, goal)
      invariant params == 0 ==> led == start
    {
      assert cs[i..][1..] == cs[i + 1..];
      if target.Some? && params > 0 { BpwReaches(led.bits, params, target.value); }
      var next := RunRaise(cs[i], job, led, params, hardCap);
      if next.None? { return None; }
      led := next.value;
      i := i + 1;
    }
    if target.Some? && params > 0 { BpwReaches(led.bits, params, target.value); }
    r := Some(led);
  }

  /** In a model without parameters nothing costs anything, so only the mandatory pass, which
      divides before it looks at the cost, can trip over the zero. */
  lemma {:induction false} NoParametersNoCost(ts: seq<Tensor>, t: Tensor, q: Quant)
    requires TotalParams(ts) == 0 && t in ts
    ensures Cost(t.shape, q) == 0
  {
    if t != ts[0] { NoParametersNoCost(ts[1..], t, q); }
    else {
      assert Product(t.shape) == 0;
      assert (0 * q.bits + 7) / 8 == 0;
    }
  }

  lemma {:induction false} NoParametersNoBits(ts: seq<Tensor>, base: Quant)
    requires TotalParams(ts) == 0
    ensures TotalBits(ts, base, map[]) == 0
  {
    if ts != [] {
      NoParametersNoCost(ts, ts[0], base);
      hide Cost, Product;
      NoParametersNoBits(ts[1..], base);
    }
  }

  /** Some tensor qualifies for a mandatory boost. */
  predicate AnyMandatory(its: seq<Item>, base: Quant) {
    exists it <- its :: Offer(MandatoryPass, it, Job(base, false, 0.0, 0.0)).Some?
  }

  /** Some tensor costs more in one width than in another. */
  ghost predicate AnyCostly(its: seq<Item>) {
    exists t: Tensor, a: Quant, b: Quant :: t in Tensors(its) && Delta(t.shape, a, b) > 0
  }

  lemma NoParametersNoneCostly(its: seq<Item>)
    requires TotalParams(Tensors(its)) == 0
    ensures !AnyCostly(its)
  {
    hide Cost, Tensors;
    forall t: Tensor, a: Quant, b: Quant | t in Tensors(its) ensures Delta(t.shape, a, b) == 0 {
      NoParametersNoCost(Tensors(its), t, a);
      NoParametersNoCost(Tensors(its), t, b);
    }
  }

  lemma DivisionsInPass(p: Pass, its: seq<Item>, job: Job, led: Ledger)
    requires exists it <- its :: Divides(p, it, job, led)
    ensures if p.MandatoryPass? then AnyMandatory(its, job.base) else AnyCostly(its)
  {
    var it :| it in its && Divides(p, it, job, led);
    ItemTensors(its);
    hide Cost, Tensors;
    assert p.MandatoryPass? ==> Offer(p, it, job) == Offer(MandatoryPass, it, Job(job.base, false, 0.0, 0.0));
    assert !p.MandatoryPass? ==> Delta(it.tensor.shape, job.base, Offer(p, it, job).value) > 0;
  }

  lemma DivisionsInGreedy(sensitivity: bool, its: seq<Item>, job: Job, led: Ledger, cs: seq<Cand>)
    requires cs == Ranked(Candidates(sensitivity, its, job, led)) && exists c <- cs :: Costly(c)
    ensures AnyCostly(its)
  {
    hide Cost, Tensors;
    var c :| c in cs && Costly(c);
    RankedIsStableSort(Candidates(sensitivity, its, job, led));
    assert c in multiset(cs);
    CandidateOrigin(sensitivity, its, job, led, c);
    var it :| it in its && CandOf(sensitivity, it, job, led) == Some(c);
    ItemTensors(its);
    var w: nat :| c.cur < w <= c.top && Delta(c.tensor.shape, Standard(c.cur), Standard(w)) > 0;
    assert c.tensor == it.tensor;
  }

  lemma ItemsWellFormed(ts: seq<Tensor>, cfg: Config, level: Level, hardCap: real)
    requires Distinct(ts)
    ensures WellFormed(DescribeAll(ts, cfg, level), JobFor(ts, cfg, level, hardCap))
    ensures cfg.experts < 150 ==> forall it <- DescribeAll(ts, cfg, level) :: !Wide(it, Standard(BaseBits(level)))
  {
    var its, unboosted := DescribeAll(ts, cfg, level), cfg.(boosts := map[], budgetPlan := false);
    forall it | it in its
      ensures it.floor.Some? ==>
        var q := it.floor.value; ValidBits(q.bits) && q in {Standard(q.bits), Affinely(q.bits, 128)}
      ensures cfg.experts < 150 ==> !Wide(it, Standard(BaseBits(level)))
    {
      var i :| 0 <= i < |its| && its[i] == it;
      RuleIsSound(ts[i].path, unboosted, level);
      assert !Boosted(Normalize(ts[i].path), unboosted);
      if cfg.experts < 150 { FewExpertsUseOneGroup(ts[i], cfg, level); }
      hide UniversalRule, LayerIndex, Wide, Boosted, Normalize;
    }
  }

  /** _build_quant_plan on a dictionary of weight shapes. */
  method BuildQuantPlan(ts: seq<Tensor>, cfg: Config, level: Level, targetBpw: real, hardCapBpw: real)
    returns (r: Outcome)
    requires Distinct(ts)
    ensures r.DivisionByZero? <==>
      TotalParams(ts) == 0 && AnyMandatory(DescribeAll(ts, cfg, level), Standard(BaseBits(level)))
    ensures r.Planned? ==>
      var plan := Plan(DescribeAll(ts, cfg, level), JobFor(ts, cfg, level, hardCapBpw),
                       Total(targetBpw, TotalParams(ts)));
      r == Planned(plan.boosts, Bpw(plan.bits, TotalParams(ts)), targetBpw, hardCapBpw)
    // without a wide floor the reported figure is the one an independent estimate gives
    ensures
      && r.Planned?
      && (cfg.experts < 150 || forall it <- DescribeAll(ts, cfg, level) :: !Wide(it, Standard(BaseBits(level)))) ==>
      r.effectiveBpw == Bpw(TotalBits(ts, Standard(BaseBits(level)), r.boosts), TotalParams(ts))
    // and it respects the cap, unless not even the base fits
    ensures r.Planned? && level != L3_5 && TotalParams(ts) > 0 ==>
      var base := Bpw(TotalBits(ts, Standard(BaseBits(level)), map[]), TotalParams(ts));
      r.effectiveBpw <= hardCapBpw || r.effectiveBpw == base
    ensures r.Planned? ==> forall p <- r.boosts :: ValidBits(r.boosts[p].bits) && BaseBits(level) < r.boosts[p].bits
  {
    hide Cost, TotalBits, TotalParams, Describe, Plan, Bpw, ValidBits, AnyMandatory, AnyCostly, WellFormed, AfterSensitivity,
      AfterFloor, AfterMandatory, AfterExperts, MaxScore, Wide, DescribeAll, Total;
    var its := DescribeAll(ts, cfg, level);
    var base := Standard(BaseBits(level));
    var bits, params := Estimate(ts, base, map[]);
    var top := HighestScore(cfg.scores);
    var job := Job(base, level == L3_5, top, Total(hardCapBpw, params));
    assert job == JobFor(ts, cfg, level, hardCapBpw);
    ItemsWellFormed(ts, cfg, level, hardCapBpw);
    if params == 0 {
      NoParametersNoneCostly(its);
      NoParametersNoBits(ts, base);
    }
    assert Tensors(its) == ts;
    var led := RunPasses(its, job, bits, params, targetBpw, hardCapBpw);
    if led.None? { return DivisionByZero; }
    PlanIsReported(ts, its, job, Total(targetBpw, params), hardCapBpw, led.value);
    if forall it <- its :: !Wide(it, base) {
      LedgerIsExact(its, job, Total(targetBpw, params));
      assert Balanced(its, job, led.value);
    }
    r := Planned(led.value.boosts, Bpw(led.value.bits, params), targetBpw, hardCapBpw);
  }

  /** The five passes; None for a division by zero. */
  method RunPasses(its: seq<Item>, job: Job, bits: int, params: nat, target: real, hardCap: real) returns (r: Option<Ledger>)
    requires bits == TotalBits(Tensors(its), job.base, map[])
    requires if params == 0 then bits == 0 else job.cap == Total(hardCap, params)
    ensures params == 0 && AnyMandatory(its, job.base) ==> r.None?
    ensures r.None? ==> params == 0 && (AnyMandatory(its, job.base) || AnyCostly(its))
    ensures r.Some? ==> r.value == Plan(its, job, Total(target, params))
  {
    hide Cost, TotalBits, Greedy, PlaceAll, Ranked, Candidates, AnyCostly, Tensors, Costly, Divides;
    if AnyMandatory(its, job.base) { MandatoryDivides(its, job, Ledger(map[], bits)); }
    r := RunPass(MandatoryPass, its, job, Ledger(map[], bits), params, hardCap);
    if r.None? { DivisionsInPass(MandatoryPass, its, job, Ledger(map[], bits)); return; }
    var led := r.value;
    assert led == AfterMandatory(its, job);
    r := RunPass(ExpertPass, its, job, led, params, hardCap);
    if r.None? { DivisionsInPass(ExpertPass, its, job, led); return; }
    led := r.value;
    assert led == AfterExperts(its, job);
    r := RunPass(FloorPass, its, job, led, params, hardCap);
    if r.None? { DivisionsInPass(FloorPass, its, job, led); return; }
    led := r.value;
    assert led == AfterFloor(its, job);
    r := RunGreedy(Ranked(Candidates(true, its, job, led)), job, led, None, params, hardCap);
    if r.None? { DivisionsInGreedy(true, its, job, led, Ranked(Candidates(true, its, job, led))); return; }
    led := r.value;
    assert led == AfterSensitivity(its, job);
    r := RunGreedy(Ranked(Candidates(false, its, job, led)), job, led, Some(target), params, hardCap);
    if r.None? { DivisionsInGreedy(false, its, job, led, Ranked(Candidates(false, its, job, led))); }
  }

  lemma MandatoryDivides(its: seq<Item>, job: Job, led: Ledger)
    requires led.boosts == map[] && AnyMandatory(its, job.base)
    ensures exists it <- its :: Divides(MandatoryPass, it, job, led)
  {
    hide Cost;
    var it :| it in its && Offer(MandatoryPass, it, Job(job.base, false, 0.0, 0.0)).Some?;
    assert Divides(MandatoryPass, it, job, led);
  }

  lemma PlanIsReported(ts: seq<Tensor>, its: seq<Item>, job: Job, goal: real, hardCapBpw: real, plan: Ledger)
    requires WellFormed(its, job) && Tensors(its) == ts && plan == Plan(its, job, goal)
    requires job.cap == Total(hardCapBpw, TotalParams(ts))
    ensures !job.experts35 && TotalParams(ts) > 0 ==>
      Bpw(plan.bits, TotalParams(ts)) <= hardCapBpw || plan.bits == TotalBits(ts, job.base, map[])
    ensures forall p <- plan.boosts :: ValidBits(plan.boosts[p].bits) && job.base.bits < plan.boosts[p].bits
  {
    hide Cost, TotalBits, TotalParams, Bpw, Plan, ValidBits, AfterExperts, WellFormed;
    PlanRespectsCap(its, job, goal);
    if TotalParams(ts) > 0 { BpwFits(plan.bits, TotalParams(ts), hardCapBpw); }
  }
}
