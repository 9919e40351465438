/** What the planner promises in its caller's terms: names, levels and layer scores. */
module PlanByName {
  import opened Common
  import opened QuantNames
  import opened QuantCost
  import opened QuantPlan
  import opened PlanProofs
  import opened PlanTheorems
  import opened PlanLedger
  import opened PlanRoom
  import opened PlanTiers
  import opened Planner

  /** The plan for a dictionary of weight shapes, its goal a figure per weight. */
  ghost function PlanOf(ts: seq<Tensor>, cfg: Config, level: Level, target: real, hardCap: real): Ledger {
    Plan(DescribeAll(ts, cfg, level), JobFor(ts, cfg, level, hardCap), Total(target, TotalParams(ts)))
  }

  ghost function WidthOf(led: Ledger, t: Tensor, level: Level): nat { Chosen(led.boosts, t.path, Standard(BaseBits(level))).bits }

  /** What the full protection rules say of a tensor, boosts and budget aside. */
  function Protection(path: string, cfg: Config, level: Level): Verdict {
    UniversalRule(path, cfg.(boosts := map[], budgetPlan := false), level)
  }

  /** Wide enough, or not worth it, or too much for the cap. */
  ghost predicate Protected(t: Tensor, q: Quant, level: Level, led: Ledger, cap: real) {
    var delta := Delta(t.shape, Standard(BaseBits(level)), q);
    q.bits <= WidthOf(led, t, level) || delta <= 0 || led.bits as real + delta as real > cap
  }

  lemma ItemFor(ts: seq<Tensor>, cfg: Config, level: Level, t: Tensor)
    requires t in ts
    ensures Describe(t, cfg, level) in DescribeAll(ts, cfg, level)
  {
    var i :| 0 <= i < |ts| && ts[i] == t;
    assert DescribeAll(ts, cfg, level)[i] == Describe(t, cfg, level);
  }

  /** In every plan, a tensor that is no routed expert gets what full protection asks for it, beyond the base,
      and one with a mandatory name 8 bits, unless it is kept in fp16; or it costs nothing more, or it does
      not fit. At level 3.5, down projections of routed experts get 4 bits, whether these fit or not. */
  lemma ProtectionsHold(ts: seq<Tensor>, cfg: Config, level: Level, target: real, hardCap: real, t: Tensor)
    requires Distinct(ts) && t in ts
    ensures var plan, cap := PlanOf(ts, cfg, level, target, hardCap), Total(hardCap, TotalParams(ts));
      var v := Protection(t.path, cfg, level);
      && (v.Use? && !IsRoutedExpert(t.path) && BaseBits(level) < v.quant.bits ==> Protected(t, v.quant, level, plan, cap))
      && (level == L3_5 && IsRoutedExpert(t.path) && IsDownProjection(t.path) ==>
            4 <= WidthOf(plan, t, level) || Delta(t.shape, Standard(3), Standard(4)) <= 0)
      && (IsMandatory(t.path) && level != L8 && !KeptInFp16(Normalize(t.path), cfg) ==> Protected(t, Standard(8), level, plan, cap))
  {
    hide Describe, DescribeAll, Plan, PlanOf, UniversalRule, WellFormed, IsMandatory, IsDownProjection, IsRoutedExpert, Normalize, KeptInFp16, Protected,
      Protection, Met, WidthOf;
    var its, job, it := DescribeAll(ts, cfg, level), JobFor(ts, cfg, level, hardCap), Describe(t, cfg, level);
    var goal := Total(target, TotalParams(ts));
    ItemFor(ts, cfg, level, t);
    ItemsWellFormed(ts, cfg, level, hardCap);
    DescribedAs(t, cfg, level);
    assert PlanOf(ts, cfg, level, target, hardCap) == Plan(its, job, goal) by { PlanIs(ts, cfg, level, target, hardCap); }
    if Offer(FloorPass, it, job).Some? {
      FloorServed(its, job, goal, it);
      MetMeans(t, it.floor.value, it, job, level, Plan(its, job, goal));
    }
    if Offer(MandatoryPass, it, job).Some? {
      MandatoryServed(its, job, goal, it);
      MetMeans(t, Standard(8), it, job, level, Plan(its, job, goal));
    }
    if job.experts35 && it.routed && it.down {
      ExpertsServed(its, job, goal, it);
      ServedMeans(t, it, job, level, Plan(its, job, goal));
    }
  }

  lemma PlanIs(ts: seq<Tensor>, cfg: Config, level: Level, target: real, hardCap: real)
    ensures PlanOf(ts, cfg, level, target, hardCap)
         == Plan(DescribeAll(ts, cfg, level), JobFor(ts, cfg, level, hardCap), Total(target, TotalParams(ts)))
  {
  }

  lemma ServedMeans(t: Tensor, it: Item, job: Job, level: Level, led: Ledger)
    requires it.tensor == t && level == L3_5 && job.base == Standard(3)
    requires 4 <= Chosen(led.boosts, t.path, job.base).bits || Delta(t.shape, job.base, Standard(4)) <= 0
    ensures 4 <= WidthOf(led, t, level) || Delta(t.shape, Standard(3), Standard(4)) <= 0
  {
    hide Cost;
  }

  lemma MetMeans(t: Tensor, q: Quant, it: Item, job: Job, level: Level, led: Ledger)
    requires Met(q, it, job, led) && it.tensor == t && job.base == Standard(BaseBits(level))
    ensures Protected(t, q, level, led, job.cap)
  {
    hide Cost;
  }

  lemma DescribedAs(t: Tensor, cfg: Config, level: Level)
    ensures var it, v := Describe(t, cfg, level), Protection(t.path, cfg, level);
      && it.tensor == t && it.floor == (if v.Use? then Some(v.quant) else None)
      && it.mandatory == IsMandatory(t.path) && it.down == IsDownProjection(t.path) && it.routed == IsRoutedExpert(t.path)
      && (it.skip <==> KeptInFp16(Normalize(t.path), cfg))
  {
    RuleIsSound(t.path, cfg.(boosts := map[]), level);
    hide UniversalRule, LayerIndex, IsMandatory, IsDownProjection, IsRoutedExpert, Normalize;
  }

  /** The score of the layer that a name speaks of; a layer without one counts as zero. */
  ghost predicate Scored(path: string, cfg: Config, score: real) {
    var layer := LayerIndex(path);
    layer.Some? && score == if layer.value in cfg.scores then cfg.scores[layer.value] else 0.0
  }

  /** Two weight matrices that the rules do not tell apart. */
  predicate Twins(a: Tensor, b: Tensor, cfg: Config, level: Level) {
    && a.shape == b.shape && !IsRoutedExpert(a.path) && !IsRoutedExpert(b.path)
    && !KeptInFp16(Normalize(a.path), cfg) && !KeptInFp16(Normalize(b.path), cfg)
    && IsMandatory(a.path) == IsMandatory(b.path) && Protection(a.path, cfg, level) == Protection(b.path, cfg, level)
  }

  /** With room in the cap, of two such matrices the one in the layer with the better score is not narrower
      after the sensitivity pass. */
  lemma BetterLayerIsWider(ts: seq<Tensor>, cfg: Config, level: Level, hardCap: real, a: Tensor, b: Tensor, low: real, high: real)
    requires Distinct(ts) && a in ts && b in ts && Twins(a, b, cfg, level) && low <= high
    requires Scored(a.path, cfg, low) && Scored(b.path, cfg, high)
    requires var its, job := DescribeAll(ts, cfg, level), JobFor(ts, cfg, level, hardCap); Fits(Room(its, job), job.cap)
    ensures var mid := AfterSensitivity(DescribeAll(ts, cfg, level), JobFor(ts, cfg, level, hardCap));
      WidthOf(mid, a, level) <= WidthOf(mid, b, level)
  {
    var its, job := DescribeAll(ts, cfg, level), JobFor(ts, cfg, level, hardCap);
    ItemFor(ts, cfg, level, a);
    ItemFor(ts, cfg, level, b);
    ItemsWellFormed(ts, cfg, level, hardCap);
    DescribedAs(a, cfg, level);
    DescribedAs(b, cfg, level);
    LayeredAs(a, cfg, level, low);
    LayeredAs(b, cfg, level, high);
    hide Describe, DescribeAll, UniversalRule, WellFormed, IsMandatory, IsRoutedExpert, Normalize, KeptInFp16, Room, AfterSensitivity,
      Scored, Protection;
    BetterScoreIsWider(its, job, Describe(a, cfg, level), Describe(b, cfg, level));
  }

  lemma LayeredAs(t: Tensor, cfg: Config, level: Level, score: real)
    requires Scored(t.path, cfg, score)
    ensures Describe(t, cfg, level).layer.Some? && Describe(t, cfg, level).score == score
  {
    hide UniversalRule, LayerIndex, IsMandatory, IsDownProjection, IsRoutedExpert, Normalize;
  }
}
