/** The plan's running total against the total recomputed from the boost map: how far they are apart,
    and when they agree. */
module PlanLedger {
  import opened Common
  import opened QuantNames
  import opened QuantCost
  import opened QuantPlan
  import opened PlanProofs
  import opened PlanTheorems

  // ---------- the identity ----------

  lemma ItemTensors(its: seq<Item>)
    ensures forall it <- its :: it.tensor in Tensors(its)
  {
    forall it | it in its ensures it.tensor in Tensors(its) {
      var k :| 0 <= k < |its| && its[k] == it;
      assert Tensors(its)[k] == it.tensor;
    }
  }

  lemma {:induction false} NothingRepriced(ts: seq<Tensor>, led: Ledger)
    ensures Repriced(ts, led, led) == 0 && Widened(led, led)
  {
    hide Cost;
    if ts != [] { NothingRepriced(ts[1..], led); }
  }

  /** The three placing passes keep the running total equal to the recomputed one. Afterwards it differs
      from it by exactly the re-pricing error of the floors that have been replaced. */
  lemma LedgerIdentity(its: seq<Item>, job: Job, goal: real)
    requires WellFormed(its, job)
    ensures var ts, floors := Tensors(its), AfterFloor(its, job);
      && Drift(ts, job, AfterMandatory(its, job)) == Drift(ts, job, AfterExperts(its, job)) == Drift(ts, job, floors) == 0
      && (forall led <- [AfterSensitivity(its, job), Plan(its, job, goal)] ::
            led.bits == TotalBits(ts, job.base, led.boosts) + Repriced(ts, floors, led) && Widened(floors, led))
  {
    var ts, floors := Tensors(its), AfterFloor(its, job);
    assert Drift(ts, job, Empty(its, job)) == 0;
    hide Cost, TotalBits, Repriced, Greedy, PlaceAll, Ranked, Candidates, Tensors, Grows, UnderCap, Current, Widened, Drift;
    PassesGrow(its, job, goal);
    ItemTensors(its);
    PlacingIsExact(MandatoryPass, its, ts, job, Empty(its, job));
    PlacingIsExact(ExpertPass, its, ts, job, AfterMandatory(its, job));
    PlacingIsExact(FloorPass, its, ts, job, AfterExperts(its, job));
    NothingRepriced(ts, floors);
    GreedyDrift(SensitivityOrder(its, job), ts, job, floors, floors, None);
    GreedyDrift(FallbackOrder(its, job), ts, job, floors, AfterSensitivity(its, job), Some(goal));
    DriftIs(ts, job, AfterSensitivity(its, job));
    DriftIs(ts, job, Plan(its, job, goal));
  }

  lemma DriftIs(ts: seq<Tensor>, job: Job, led: Ledger)
    ensures led.bits == TotalBits(ts, job.base, led.boosts) + Drift(ts, job, led)
  {
  }

  // ---------- the error in closed form ----------

  /** A matrix with weights whose rows split into groups of 64. */
  predicate Grouped(t: Tensor) { |t.shape| >= 2 && Product(t.shape) > 0 && RowLength(t.shape) % 64 == 0 }

  /** An odd number of groups of 64 to a row. */
  predicate OddRow(t: Tensor) { Grouped(t) && RowLength(t.shape) % 128 != 0 }

  /** Replacing a floor of b bits in groups of 128: a quarter of a bit per weight too little, or, where
      such a floor can only be kept in fp16, the rest of its sixteen bits too much. */
  function WideError(t: Tensor, bits: nat): int {
    if !Grouped(t) then 0
    else if OddRow(t) then (31 - 2 * bits) * (Product(t.shape) / 2)
    else -(Product(t.shape) / 4)
  }

  lemma WideErrorIs(t: Tensor, bits: nat)
    ensures Delta(t.shape, Standard(bits), Affinely(bits, 128)) == WideError(t, bits)
    ensures Grouped(t) ==> Product(t.shape) >= 64
  {
    var n := Product(t.shape);
    if |t.shape| < 2 || RowLength(t.shape) % 64 != 0 {
      assert RowLength(t.shape) % 128 != 0 || |t.shape| < 2;
    } else {
      AffineDensity(t.shape, bits, 64);
      GroupCount(t.shape, 64);
      hide Product, Groups;
      var m := Groups(t.shape, 64);
      assert 64 * Cost(t.shape, Standard(bits)) == 64 * (n * bits) + 32 * n;
      if RowLength(t.shape) % 128 == 0 {
        AffineDensity(t.shape, bits, 128);
        assert 128 * Cost(t.shape, Affinely(bits, 128)) == 128 * (n * bits) + 32 * n;
      } else {
        assert Cost(t.shape, Affinely(bits, 128)) == 16 * n;
        Halves(n, m, bits);
      }
    }
  }

  lemma Halves(n: int, m: int, bits: int)
    requires n == 64 * m
    ensures 2 * ((31 - 2 * bits) * (n / 2)) == 31 * n - 2 * (n * bits)
  {
    assert (31 - 2 * bits) * (32 * m) == 31 * (32 * m) - 2 * (bits * (32 * m));
    assert n * bits == 2 * (bits * (32 * m));
  }

  /** A floor in groups of 128 that matters to the total has been replaced. */
  predicate Missed(t: Tensor, before: Ledger, after: Ledger) {
    Grouped(t) && Changed(t, before, after) && before.boosts[t.path].group == 128
  }

  /** Every entry is in groups of 64 or 128. */
  ghost predicate InGroups(ts: seq<Tensor>, led: Ledger) {
    forall t <- ts :: t.path in led.boosts ==>
      var q := led.boosts[t.path]; q.bits <= 8 && q in {Standard(q.bits), Affinely(q.bits, 128)}
  }

  lemma ErrorOfOne(t: Tensor, before: Ledger, after: Ledger)
    requires InGroups([t], before)
    ensures Repriced([t], before, after)
         == if Missed(t, before, after) then WideError(t, before.boosts[t.path].bits) else 0
    ensures Missed(t, before, after) ==> WideError(t, before.boosts[t.path].bits) != 0
    ensures OddRow(t) ==> 0 <= Repriced([t], before, after) <= 16 * Product(t.shape)
    ensures !OddRow(t) ==> Repriced([t], before, after) <= 0
  {
    assert [t][1..] == [] && t in [t];
    hide Cost, Product;
    if Changed(t, before, after) {
      WideErrorIs(t, before.boosts[t.path].bits);
      if OddRow(t) { OddErrorBounds(Product(t.shape), before.boosts[t.path].bits); }
    }
  }

  lemma OddErrorBounds(n: nat, bits: nat)
    requires bits <= 8 && n >= 64
    ensures 0 < (31 - 2 * bits) * (n / 2) <= 16 * n
  {
    Scale(1, 31 - 2 * bits, n / 2);
    Scale(31 - 2 * bits, 31, n / 2);
  }

  lemma RepricedSplits(ts: seq<Tensor>, before: Ledger, after: Ledger)
    requires ts != []
    ensures Repriced(ts, before, after) == Repriced([ts[0]], before, after) + Repriced(ts[1..], before, after)
  {
    hide Cost;
    assert [ts[0]][1..] == [];
  }

  /** Of the errors made none, or every one, is on a row with an odd number of groups: then none makes
      up for another one. */
  ghost predicate SameSign(ts: seq<Tensor>, before: Ledger, after: Ledger) {
    || (forall t <- ts :: Missed(t, before, after) ==> !OddRow(t))
    || (forall t <- ts :: Missed(t, before, after) ==> OddRow(t))
  }

  lemma {:induction false} RepricedSign(ts: seq<Tensor>, before: Ledger, after: Ledger)
    requires InGroups(ts, before)
    ensures (forall t <- ts :: Missed(t, before, after) ==> !OddRow(t)) ==> Repriced(ts, before, after) <= 0
    ensures (forall t <- ts :: Missed(t, before, after) ==> OddRow(t)) ==> Repriced(ts, before, after) >= 0
    ensures (forall t <- ts :: !Missed(t, before, after)) ==> Repriced(ts, before, after) == 0
    ensures SameSign(ts, before, after) && Repriced(ts, before, after) == 0 ==> forall t <- ts :: !Missed(t, before, after)
  {
    if ts != [] {
      var t, rest := ts[0], ts[1..];
      assert forall u <- ts :: u == t || u in rest;
      ErrorOfOne(t, before, after);
      RepricedSplits(ts, before, after);
      hide Repriced, Missed, Grouped, OddRow, WideError, Product;
      RepricedSign(rest, before, after);
      assert SameSign(ts, before, after) ==> SameSign(rest, before, after);
    }
  }

  /** The errors of the replaced floors, in closed form. */
  function WideErrors(ts: seq<Tensor>, before: Ledger, after: Ledger): int {
    if ts == [] then 0
    else (if Missed(ts[0], before, after) then WideError(ts[0], before.boosts[ts[0].path].bits) else 0)
         + WideErrors(ts[1..], before, after)
  }

  lemma {:induction false} RepricedIsWide(ts: seq<Tensor>, before: Ledger, after: Ledger)
    requires InGroups(ts, before)
    ensures Repriced(ts, before, after) == WideErrors(ts, before, after)
  {
    if ts != [] {
      ErrorOfOne(ts[0], before, after);
      RepricedSplits(ts, before, after);
      hide Repriced, Missed, WideError;
      RepricedIsWide(ts[1..], before, after);
    }
  }

  // ---------- which floors can be replaced ----------

  /** A floor in groups of 128 that the floor pass may place and a greedy pass may replace. */
  predicate Wide(it: Item, base: Quant) {
    && !it.routed && it.floor.Some? && it.floor.value.group == 128
    && base.bits < it.floor.value.bits < 8 && Grouped(it.tensor)
  }

  /** The entry of a tensor after the floor pass: none, in groups of 64, or its floor. */
  lemma FloorEntry(its: seq<Item>, job: Job, it: Item)
    requires WellFormed(its, job) && it in its && it.tensor.path in AfterFloor(its, job).boosts
    ensures var q := AfterFloor(its, job).boosts[it.tensor.path];
      && q.bits <= 8
      && (q == Standard(q.bits) || (q == Affinely(q.bits, 128) && Offer(FloorPass, it, job) == Some(q)))
  {
    hide Cost, PlaceAll, Tensors;
    var path := it.tensor.path;
    PlacingServes(MandatoryPass, its, job, Empty(its, job), it);
    if path in AfterMandatory(its, job).boosts {
      PlacingElsewhere(ExpertPass, its, job, AfterMandatory(its, job), path);
      PlacingElsewhere(FloorPass, its, job, AfterExperts(its, job), path);
    } else {
      PlacingServes(ExpertPass, its, job, AfterMandatory(its, job), it);
      if path in AfterExperts(its, job).boosts {
        PlacingElsewhere(FloorPass, its, job, AfterExperts(its, job), path);
      } else {
        PlacingServes(FloorPass, its, job, AfterExperts(its, job), it);
      }
    }
  }

  lemma ItemOf(its: seq<Item>, t: Tensor) returns (it: Item)
    requires t in Tensors(its)
    ensures it in its && it.tensor == t
  {
    var k :| 0 <= k < |its| && Tensors(its)[k] == t;
    it := its[k];
  }

  lemma FloorsInGroups(its: seq<Item>, job: Job)
    requires WellFormed(its, job)
    ensures InGroups(Tensors(its), AfterFloor(its, job))
  {
    hide Tensors, AfterFloor, WellFormed;
    forall t | t in Tensors(its) && t.path in AfterFloor(its, job).boosts
      ensures var q := AfterFloor(its, job).boosts[t.path]; q.bits <= 8 && q in {Standard(q.bits), Affinely(q.bits, 128)}
    {
      var it := ItemOf(its, t);
      FloorEntry(its, job, it);
    }
  }

  /** Only a wide floor can be missed. */
  lemma MissedIsWide(its: seq<Item>, job: Job, it: Item, led: Ledger)
    requires WellFormed(its, job) && it in its && Missed(it.tensor, AfterFloor(its, job), led)
    requires Widened(AfterFloor(its, job), led) && Grows(job, AfterFloor(its, job), led)
    ensures Wide(it, job.base)
  {
    hide Cost, AfterFloor, Product;
    FloorEntry(its, job, it);
    assert led.boosts[it.tensor.path].bits <= 8;
  }

  /** Is the running total that of the boost map? */
  ghost predicate Balanced(its: seq<Item>, job: Job, led: Ledger) {
    led.bits == TotalBits(Tensors(its), job.base, led.boosts)
  }

  /** After every pass the running total differs from the recomputed one by the errors of the replaced
      floors. */
  lemma LedgerInClosedForm(its: seq<Item>, job: Job, goal: real)
    requires WellFormed(its, job)
    ensures var ts, floors := Tensors(its), AfterFloor(its, job);
      && Balanced(its, job, AfterMandatory(its, job)) && Balanced(its, job, AfterExperts(its, job)) && Balanced(its, job, floors)
      && (forall led <- [AfterSensitivity(its, job), Plan(its, job, goal)] ::
            led.bits == TotalBits(ts, job.base, led.boosts) + WideErrors(ts, floors, led))
  {
    LedgerIdentity(its, job, goal);
    FloorsInGroups(its, job);
    var ts, floors := Tensors(its), AfterFloor(its, job);
    hide AfterFloor, AfterSensitivity, Plan, WideErrors, Repriced, TotalBits, WellFormed, AfterMandatory, AfterExperts, Tensors;
    RepricedIsWide(ts, floors, AfterSensitivity(its, job));
    RepricedIsWide(ts, floors, Plan(its, job, goal));
  }

  /** None of the wide floors, or every one, is on a row with an odd number of groups. */
  predicate OneSign(its: seq<Item>, base: Quant) {
    (forall it <- its :: Wide(it, base) ==> !OddRow(it.tensor)) || (forall it <- its :: Wide(it, base) ==> OddRow(it.tensor))
  }

  lemma OneSignOfErrors(its: seq<Item>, job: Job, led: Ledger)
    requires WellFormed(its, job) && OneSign(its, job.base)
    requires Widened(AfterFloor(its, job), led) && Grows(job, AfterFloor(its, job), led)
    ensures SameSign(Tensors(its), AfterFloor(its, job), led)
  {
    hide AfterFloor, Missed, WellFormed, Tensors, OddRow, Wide, Widened, Grows;
    forall t | t in Tensors(its) && Missed(t, AfterFloor(its, job), led)
      ensures exists it <- its :: it.tensor == t && Wide(it, job.base)
    {
      var it := ItemOf(its, t);
      MissedIsWide(its, job, it, led);
    }
  }

  /** Where no error makes up for another, the final total is right if and only if no floor in groups
      of 128, on a tensor that matters, was replaced. */
  lemma ExactIffNoneMissed(its: seq<Item>, job: Job, goal: real)
    requires WellFormed(its, job) && OneSign(its, job.base)
    ensures Balanced(its, job, Plan(its, job, goal))
      <==> forall t <- Tensors(its) :: !Missed(t, AfterFloor(its, job), Plan(its, job, goal))
  {
    LedgerIdentity(its, job, goal);
    PassesGrow(its, job, goal);
    FloorsInGroups(its, job);
    hide AfterFloor, AfterSensitivity, Plan, TotalBits, Repriced, Missed, WellFormed, Tensors, OneSign, AfterMandatory,
      AfterExperts, Grows, Widened, SameSign;
    GrowsOn(job, AfterFloor(its, job), AfterSensitivity(its, job), Plan(its, job, goal));
    OneSignOfErrors(its, job, Plan(its, job, goal));
    RepricedSign(Tensors(its), AfterFloor(its, job), Plan(its, job, goal));
  }

  /** Whatever the cap, the scores and the goal: without a wide floor the running total is the recomputed
      total after each of the five passes. */
  lemma LedgerIsExact(its: seq<Item>, job: Job, goal: real)
    requires WellFormed(its, job) && forall it <- its :: !Wide(it, job.base)
    ensures forall led <- [AfterMandatory(its, job), AfterExperts(its, job), AfterFloor(its, job),
                           AfterSensitivity(its, job), Plan(its, job, goal)] :: Balanced(its, job, led)
  {
    LedgerIdentity(its, job, goal);
    LedgerInClosedForm(its, job, goal);
    PassesGrow(its, job, goal);
    FloorsInGroups(its, job);
    var ts, floors := Tensors(its), AfterFloor(its, job);
    hide AfterFloor, AfterSensitivity, Plan, TotalBits, Repriced, WellFormed, AfterMandatory, AfterExperts, Grows, Missed,
      Widened, Tensors, Wide, WideErrors;
    GrowsOn(job, floors, AfterSensitivity(its, job), Plan(its, job, goal));
    forall led, t | led in [AfterSensitivity(its, job), Plan(its, job, goal)] && t in ts ensures !Missed(t, floors, led) {
      var it := ItemOf(its, t);
      if Missed(t, floors, led) { MissedIsWide(its, job, it, led); }
    }
    RepricedSign(ts, floors, AfterSensitivity(its, job));
    RepricedSign(ts, floors, Plan(its, job, goal));
  }

  /** With fewer than 150 experts there is no wide floor: every one is in groups of 64. */
  lemma FewExpertsUseOneGroup(t: Tensor, cfg: Config, level: Level)
    requires cfg.experts < 150
    ensures !Wide(Describe(t, cfg, level), Standard(BaseBits(level)))
  {
    var unboosted := cfg.(boosts := map[], budgetPlan := false);
    RuleIsSound(t.path, unboosted, level);
    assert !Boosted(Normalize(t.path), unboosted);
    hide UniversalRule, LayerIndex, Boosted, Grouped, Normalize;
  }
}
