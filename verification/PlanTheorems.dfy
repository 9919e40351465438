/** The main results about a whole plan; PlanLedger adds those about its total. */
module PlanTheorems {
  import opened Common
  import opened QuantNames
  import opened QuantCost
  import opened QuantPlan
  import opened PlanProofs

  function CandOf(sensitivity: bool, it: Item, job: Job, led: Ledger): Option<Cand> {
    if sensitivity then SensitivityCand(it, job, led) else FallbackCand(it, job, led)
  }

  lemma {:induction false} CandidateOrigin(sensitivity: bool, its: seq<Item>, job: Job, led: Ledger, c: Cand)
    ensures c in Candidates(sensitivity, its, job, led)
       <==> exists it :: it in its && CandOf(sensitivity, it, job, led) == Some(c)
  {
    hide Cost;
    if its != [] {
      CandidateOrigin(sensitivity, its[1..], job, led, c);
      var first, rest := CandOf(sensitivity, its[0], job, led), Candidates(sensitivity, its[1..], job, led);
      assert c in Candidates(sensitivity, its, job, led) <==> first == Some(c) || c in rest;
      if first == Some(c) { assert its[0] in its; }
      assert forall it <- its[1..] :: it in its;
    }
  }

  lemma {:induction false} CandidatesDiffer(sensitivity: bool, its: seq<Item>, job: Job, led: Ledger)
    requires Distinct(Tensors(its))
    ensures Apart(Candidates(sensitivity, its, job, led))
  {
    hide Cost;
    if its != [] {
      assert Tensors(its[1..]) == Tensors(its)[1..];
      CandidatesDiffer(sensitivity, its[1..], job, led);
      var rest := Candidates(sensitivity, its[1..], job, led);
      forall j | 0 <= j < |rest| ensures rest[j].tensor.path != its[0].tensor.path {
        CandidateOrigin(sensitivity, its[1..], job, led, rest[j]);
        var it :| it in its[1..] && CandOf(sensitivity, it, job, led) == Some(rest[j]);
        var k :| 0 <= k < |its| - 1 && its[1..][k] == it;
        assert Tensors(its)[0].path != Tensors(its)[k + 1].path;
      }
      var c := CandOf(sensitivity, its[0], job, led);
      if c.Some? { OneMoreDistinct(c.value, rest); }
    }
  }

  lemma OneMoreDistinct(c: Cand, rest: seq<Cand>)
    requires Apart(rest) && forall j :: 0 <= j < |rest| ==> rest[j].tensor.path != c.tensor.path
    ensures Apart([c] + rest)
  {
    var all := [c] + rest;
    forall i, j | 0 <= i < j < |all| ensures all[i].tensor.path != all[j].tensor.path {
      assert all[j] == rest[j - 1];
      if i > 0 { assert all[i] == rest[i - 1]; }
    }
  }

  lemma CandidatesAreCurrent(sensitivity: bool, its: seq<Item>, ts: seq<Tensor>, job: Job, led: Ledger)
    requires Distinct(Tensors(its)) && forall it <- its :: it.tensor in ts
    requires forall p <- led.boosts :: job.base.bits <= led.boosts[p].bits
    ensures Current(Candidates(sensitivity, its, job, led), ts, job, led)
  {
    hide Cost;
    CandidatesDiffer(sensitivity, its, job, led);
    forall c | c in Candidates(sensitivity, its, job, led)
      ensures c.tensor in ts && Chosen(led.boosts, c.tensor.path, job.base).bits == c.cur && job.base.bits <= c.cur
    {
      CandidateOrigin(sensitivity, its, job, led, c);
    }
  }

  lemma OrderIsCurrent(sensitivity: bool, its: seq<Item>, job: Job, led: Ledger)
    requires Distinct(Tensors(its))
    requires forall p <- led.boosts :: job.base.bits <= led.boosts[p].bits
    ensures var cs := Ranked(Candidates(sensitivity, its, job, led));
      Current(cs, Tensors(its), job, led) && forall c :: c in cs <==> c in Candidates(sensitivity, its, job, led)
  {
    hide Cost;
    forall it | it in its ensures it.tensor in Tensors(its) {
      var k :| 0 <= k < |its| && its[k] == it;
      assert Tensors(its)[k] == it.tensor;
    }
    CandidatesAreCurrent(sensitivity, its, Tensors(its), job, led);
    RankedDistinct(Candidates(sensitivity, its, job, led));
  }

  // ---------- monotonicity and the cap ----------

  /** No pass takes anything back, and only the expert pass may spend beyond the cap. */
  lemma PassesGrow(its: seq<Item>, job: Job, goal: real)
    requires WellFormed(its, job)
    ensures var s0, s1, s2 := Empty(its, job), AfterMandatory(its, job), AfterExperts(its, job);
      var s3, s4, s5 := AfterFloor(its, job), AfterSensitivity(its, job), Plan(its, job, goal);
      && Grows(job, s0, s1) && Grows(job, s1, s2) && Grows(job, s2, s3) && Grows(job, s3, s4) && Grows(job, s4, s5)
      && UnderCap(job, s0, s1) && UnderCap(job, s2, s3) && UnderCap(job, s3, s4) && UnderCap(job, s4, s5)
    ensures Current(SensitivityOrder(its, job), Tensors(its), job, AfterFloor(its, job))
    ensures Current(FallbackOrder(its, job), Tensors(its), job, AfterSensitivity(its, job))
  {
    var ts, s0 := Tensors(its), Empty(its, job);
    assert s0.boosts == map[];
    hide Cost, PlaceAll, Greedy, Ranked, Candidates, TotalBits, Tensors, Grows, UnderCap, Current, Describe, Empty;
    var s1, s2, s3, s4 := AfterMandatory(its, job), AfterExperts(its, job), AfterFloor(its, job), AfterSensitivity(its, job);
    PlacingGrows(MandatoryPass, its, job, s0);
    PlacingGrows(ExpertPass, its, job, s1);
    PlacingGrows(FloorPass, its, job, s2);
    GrowsOn(job, s0, s1, s2);
    GrowsOn(job, s0, s2, s3);
    AboveBase(job, s0, s3);
    OrderIsCurrent(true, its, job, s3);
    GreedyGrows(SensitivityOrder(its, job), ts, job, s3, None);
    GrowsOn(job, s0, s3, s4);
    AboveBase(job, s0, s4);
    OrderIsCurrent(false, its, job, s4);
    GreedyGrows(FallbackOrder(its, job), ts, job, s4, Some(goal));
  }

  lemma GrowsOn(job: Job, a: Ledger, b: Ledger, c: Ledger)
    requires Grows(job, a, b) && Grows(job, b, c)
    ensures Grows(job, a, c)
  {
  }

  lemma AboveBase(job: Job, a: Ledger, b: Ledger)
    requires Grows(job, a, b) && a.boosts == map[]
    ensures forall p <- b.boosts :: job.base.bits <= b.boosts[p].bits
  {
  }

  /** The plan never exceeds the larger of the hard cap and what it could not avoid: the all-base
      size, or at level 3.5 the size right after the uncapped expert pass. Every entry of the
      boost map is a supported width above the base. */
  lemma PlanRespectsCap(its: seq<Item>, job: Job, goal: real)
    requires WellFormed(its, job)
    ensures var plan := Plan(its, job, goal);
      && Grows(job, Empty(its, job), plan)
      && (Fits(plan.bits, job.cap) || plan.bits == AfterExperts(its, job).bits)
      && (!job.experts35 ==> Fits(plan.bits, job.cap) || plan.bits == Empty(its, job).bits)
  {
    hide Cost, PlaceAll, Greedy, Ranked, Candidates, TotalBits, Tensors, Current;
    PassesGrow(its, job, goal);
    var s0, s1, s2 := Empty(its, job), AfterMandatory(its, job), AfterExperts(its, job);
    var s3, s4, s5 := AfterFloor(its, job), AfterSensitivity(its, job), Plan(its, job, goal);
    GrowsOn(job, s0, s1, s2);
    GrowsOn(job, s0, s2, s3);
    GrowsOn(job, s0, s3, s4);
    GrowsOn(job, s0, s4, s5);
    if !job.experts35 { NoExperts(its, job, s1); }
  }

  lemma {:induction false} NoExperts(its: seq<Item>, job: Job, led: Ledger)
    requires !job.experts35
    ensures PlaceAll(ExpertPass, its, job, led) == led
  {
    hide Cost;
    if its != [] { NoExperts(its[1..], job, led); }
  }

  // ---------- who is boosted ----------

  /** A routed expert is boosted only by a mandatory name or by the level 3.5 down projection rule. */
  lemma RoutedOnlyByRule(its: seq<Item>, job: Job, goal: real, it: Item)
    requires WellFormed(its, job) && it in its && it.routed && it.tensor.path in Plan(its, job, goal).boosts
    ensures (!it.skip && it.mandatory) || (job.experts35 && it.down)
  {
    hide Cost, PlaceAll, Greedy, Ranked, Candidates, TotalBits;
    var path := it.tensor.path;
    NotRanked(true, its, job, AfterFloor(its, job), it);
    NotRanked(false, its, job, AfterSensitivity(its, job), it);
    GreedyElsewhere(SensitivityOrder(its, job), job, AfterFloor(its, job), None, path);
    GreedyElsewhere(FallbackOrder(its, job), job, AfterSensitivity(its, job), Some(goal), path);
    PlacingServes(MandatoryPass, its, job, Empty(its, job), it);
    if path !in AfterMandatory(its, job).boosts {
      PlacingServes(ExpertPass, its, job, AfterMandatory(its, job), it);
      if path !in AfterExperts(its, job).boosts { PlacingServes(FloorPass, its, job, AfterExperts(its, job), it); }
    }
  }

  lemma SameItem(its: seq<Item>, a: Item, b: Item)
    requires Distinct(Tensors(its)) && a in its && b in its && a.tensor.path == b.tensor.path
    ensures a == b
  {
    var i :| 0 <= i < |its| && its[i] == a;
    var j :| 0 <= j < |its| && its[j] == b;
    assert Tensors(its)[i].path == a.tensor.path && Tensors(its)[j].path == b.tensor.path;
  }

  /** What is no candidate is not raised. */
  lemma NotRanked(sensitivity: bool, its: seq<Item>, job: Job, led: Ledger, it: Item)
    requires Distinct(Tensors(its)) && it in its && CandOf(sensitivity, it, job, led).None?
    ensures forall c <- Ranked(Candidates(sensitivity, its, job, led)) :: c.tensor.path != it.tensor.path
  {
    var cs := Candidates(sensitivity, its, job, led);
    hide Cost, Tensors, Ranked, Candidates;
    RankedIsStableSort(cs);
    forall c | c in Ranked(cs) ensures c.tensor.path != it.tensor.path {
      assert c in multiset(cs);
      CandidateOrigin(sensitivity, its, job, led, c);
      var o :| o in its && CandOf(sensitivity, o, job, led) == Some(c);
      if o.tensor.path == it.tensor.path { SameItem(its, o, it); }
    }
  }

  /** A protection is met when the tensor is at least that wide, or the protection would save
      nothing, or it would not fit beside what has been spent. */
  ghost predicate Met(q: Quant, it: Item, job: Job, led: Ledger) {
    var delta := Delta(it.tensor.shape, job.base, q);
    || q.bits <= Chosen(led.boosts, it.tensor.path, job.base).bits
    || delta <= 0 || !Fits(led.bits + delta, job.cap)
  }

  lemma MetStays(q: Quant, it: Item, job: Job, a: Ledger, b: Ledger)
    requires Grows(job, a, b) && Met(q, it, job, a)
    ensures Met(q, it, job, b)
  {
    hide Cost;
  }

  lemma GrowsFrom(its: seq<Item>, job: Job, goal: real)
    requires WellFormed(its, job)
    ensures Grows(job, AfterMandatory(its, job), Plan(its, job, goal))
    ensures Grows(job, AfterFloor(its, job), Plan(its, job, goal))
  {
    hide Grows, UnderCap, Current, WellFormed, PlaceAll, Greedy, Ranked, Candidates, TotalBits, Tensors;
    PassesGrow(its, job, goal);
    var s1, s2, s3, s4, s5 := AfterMandatory(its, job), AfterExperts(its, job), AfterFloor(its, job),
                              AfterSensitivity(its, job), Plan(its, job, goal);
    GrowsOn(job, s3, s4, s5);
    GrowsOn(job, s2, s3, s5);
    GrowsOn(job, s1, s2, s5);
  }

  /** Every mandatory 8-bit boost is met at the end. */
  lemma MandatoryServed(its: seq<Item>, job: Job, goal: real, it: Item)
    requires WellFormed(its, job) && it in its && Offer(MandatoryPass, it, job).Some?
    ensures Met(Standard(8), it, job, Plan(its, job, goal))
  {
    hide Cost, PlaceAll, Plan;
    PlacingServes(MandatoryPass, its, job, Empty(its, job), it);
    GrowsFrom(its, job, goal);
    MetStays(Standard(8), it, job, AfterMandatory(its, job), Plan(its, job, goal));
  }

  /** Every protection floor of a tensor that is not a routed expert is met at the end. */
  lemma FloorServed(its: seq<Item>, job: Job, goal: real, it: Item)
    requires WellFormed(its, job) && it in its && Offer(FloorPass, it, job).Some?
    ensures Met(it.floor.value, it, job, Plan(its, job, goal))
  {
    hide Cost, PlaceAll, Plan, Tensors;
    GrowsFrom(its, job, goal);
    FloorServedAtOnce(its, job, it);
    MetStays(it.floor.value, it, job, AfterFloor(its, job), Plan(its, job, goal));
  }

  /** At level 3.5 every down projection of a routed expert ends one bit above the base, or wider, unless that
      would save nothing; there is no cap on this. */
  lemma ExpertsServed(its: seq<Item>, job: Job, goal: real, it: Item)
    requires WellFormed(its, job) && it in its && job.experts35 && it.routed && it.down
    ensures var q := Standard(job.base.bits + 1);
      || q.bits <= Chosen(Plan(its, job, goal).boosts, it.tensor.path, job.base).bits
      || Delta(it.tensor.shape, job.base, q) <= 0
  {
    hide Cost, PlaceAll, Plan;
    var path, s1, s2 := it.tensor.path, AfterMandatory(its, job), AfterExperts(its, job);
    GrowsFrom(its, job, goal);
    PlacingServes(MandatoryPass, its, job, Empty(its, job), it);
    if path in s1.boosts {
      assert 4 <= s1.boosts[path].bits;
    } else {
      PlacingServes(ExpertPass, its, job, s1, it);
      if path in s2.boosts {
        PlacingElsewhere(FloorPass, its, job, s2, path);
      }
    }
  }

  lemma FloorServedAtOnce(its: seq<Item>, job: Job, it: Item)
    requires WellFormed(its, job) && it in its && Offer(FloorPass, it, job).Some?
    ensures Met(it.floor.value, it, job, AfterFloor(its, job))
  {
    hide Cost, PlaceAll;
    var path := it.tensor.path;
    PlacingServes(MandatoryPass, its, job, Empty(its, job), it);
    if path in AfterMandatory(its, job).boosts {
      PlacingElsewhere(ExpertPass, its, job, AfterMandatory(its, job), path);
      PlacingElsewhere(FloorPass, its, job, AfterExperts(its, job), path);
      assert it.floor.value.bits <= 8;
    } else {
      PlacingServes(ExpertPass, its, job, AfterMandatory(its, job), it);
      PlacingServes(FloorPass, its, job, AfterExperts(its, job), it);
    }
  }

  // ---------- maximality ----------

  lemma EntriesAboveBase(its: seq<Item>, job: Job)
    requires WellFormed(its, job)
    ensures forall led <- [AfterFloor(its, job), AfterSensitivity(its, job)], p <- led.boosts ::
      job.base.bits <= led.boosts[p].bits
  {
    var s0, s1, s2, s3, s4 := Empty(its, job), AfterMandatory(its, job), AfterExperts(its, job), AfterFloor(its, job),
                              AfterSensitivity(its, job);
    assert s0.boosts == map[];
    hide Cost, TotalBits, Tensors, PlaceAll, Grows, Empty, WellFormed, AfterMandatory, AfterExperts, AfterFloor, AfterSensitivity;
    PassesGrow(its, job, 0.0);
    GrowsOn(job, s0, s1, s2);
    GrowsOn(job, s0, s2, s3);
    GrowsOn(job, s0, s3, s4);
    AboveBase(job, s0, s3);
    AboveBase(job, s0, s4);
  }

  /** Either the plan reaches its target, or no boosted tensor below 8 bits, other than a routed
      expert, can be raised to any supported width at a strictly greater cost within the hard cap.
      Costs are those the fallback pass uses, in groups of 64. */
  lemma PlanIsMaximal(its: seq<Item>, job: Job, goal: real, it: Item, w: nat)
    requires WellFormed(its, job) && it in its && !it.routed && ValidBits(w)
    requires it.tensor.path in Plan(its, job, goal).boosts
    requires !Reached(Plan(its, job, goal).bits, Some(goal))
    ensures var plan := Plan(its, job, goal);
      var now := plan.boosts[it.tensor.path].bits;
      var delta := Delta(it.tensor.shape, Standard(now), Standard(w));
      now < w && delta > 0 ==> !Fits(plan.bits + delta, job.cap)
  {
    var led, order, path := AfterSensitivity(its, job), FallbackOrder(its, job), it.tensor.path;
    hide Cost, PlaceAll, Greedy, Ranked, Candidates, TotalBits, Current, AfterSensitivity, Tensors;
    EntriesAboveBase(its, job);
    assert forall p <- led.boosts :: job.base.bits <= led.boosts[p].bits;
    OrderIsCurrent(false, its, job, led);
    if forall c <- order :: c.tensor.path != path {
      GreedyElsewhere(order, job, led, Some(goal), path);
      AlreadyWidest(its, job, led, it);
    } else {
      var c :| c in order && c.tensor.path == path;
      CandidateOrigin(false, its, job, led, c);
      var o :| o in its && CandOf(false, o, job, led) == Some(c);
      SameItem(its, o, it);
      GreedyIsMaximal(order, Tensors(its), job, led, Some(goal), c);
      var now := c.(cur := Chosen(Plan(its, job, goal).boosts, path, job.base).bits);
      assert w <= c.top && !Admissible(now, w, Plan(its, job, goal).bits, job.cap);
    }
  }

  /** A boosted tensor that is no fallback candidate has its 8 bits. */
  lemma AlreadyWidest(its: seq<Item>, job: Job, led: Ledger, it: Item)
    requires it in its && !it.routed && it.tensor.path in led.boosts
    requires forall c <- Candidates(false, its, job, led) :: c.tensor.path != it.tensor.path
    ensures led.boosts[it.tensor.path].bits >= 8
  {
    var c := FallbackCand(it, job, led);
    if c.Some? { CandidateOrigin(false, its, job, led, c.value); }
    hide Cost, Candidates;
  }

  /** After the sensitivity pass no candidate can be raised further within its allowance. */
  lemma SensitivityIsMaximal(its: seq<Item>, job: Job, c: Cand, w: nat)
    requires WellFormed(its, job) && c in SensitivityOrder(its, job) && w <= c.top
    ensures var led := AfterSensitivity(its, job);
      !Admissible(c.(cur := Chosen(led.boosts, c.tensor.path, job.base).bits), w, led.bits, job.cap)
  {
    hide Cost;
    PassesGrow(its, job, 0.0);
    GreedyIsMaximal(SensitivityOrder(its, job), Tensors(its), job, AfterFloor(its, job), None, c);
  }
}
