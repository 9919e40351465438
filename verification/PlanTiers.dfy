/** How far a layer's score takes its tensors: what the sensitivity pass does with the widths that the
    placing passes have left. */
module PlanTiers {
  import opened Common
  import opened QuantNames
  import opened QuantCost
  import opened QuantPlan
  import opened PlanProofs
  import opened PlanTheorems
  import opened PlanLedger
  import opened PlanRoom

  /** Open to the sensitivity pass: a tensor of a layer that is neither routed nor kept in fp16. */
  predicate Layered(it: Item) { !it.routed && !it.skip && it.layer.Some? }

  /** A supported width above cur within the allowance of a score: up to 8 bits at half the best score,
      2 bits more at a fifth of it, and 1 bit more below. */
  predicate Earned(v: nat, cur: nat, score: real, best: real) {
    && cur < v && ValidBits(v)
    && (v == cur + 1 || (best > 0.0 && 2.0 * score >= best) || (best > 0.0 && 5.0 * score >= best && v == cur + 2))
  }

  function WidthIn(it: Item, job: Job, led: Ledger): nat { Chosen(led.boosts, it.tensor.path, job.base).bits }

  lemma Ratio(score: real, best: real)
    requires best > 0.0
    ensures score / best >= 0.5 <==> 2.0 * score >= best
    ensures score / best >= 0.2 <==> 5.0 * score >= best
  {
    assert score / best * best == score;
    var r := score / best;
    assert r >= 0.5 ==> r * best >= 0.5 * best;
    assert r >= 0.2 ==> r * best >= 0.2 * best;
    assert r < 0.5 ==> r * best < 0.5 * best;
    assert r < 0.2 ==> r * best < 0.2 * best;
  }

  lemma EarnedIsOffered(v: nat, cur: nat, score: real, best: real)
    requires cur < v && ValidBits(v)
    ensures Earned(v, cur, score, best) <==> v <= TopFor(cur, score, best)
  {
    if best > 0.0 { Ratio(score, best); }
  }

  lemma CandidateOf(its: seq<Item>, job: Job, it: Item)
    requires WellFormed(its, job) && it in its && Layered(it)
    ensures var floors := AfterFloor(its, job);
      var cur := WidthIn(it, job, floors);
      var c := Cand(it.score, it.tensor, cur, TopFor(cur, it.score, job.maxScore));
      && Current(SensitivityOrder(its, job), Tensors(its), job, floors)
      && if c.top > cur then c in SensitivityOrder(its, job)
         else forall d <- SensitivityOrder(its, job) :: d.tensor.path != it.tensor.path
  {
    var floors := AfterFloor(its, job);
    var c := SensitivityCand(it, job, floors);
    PassesGrow(its, job, 0.0);
    hide Cost, AfterFloor, Tensors, Ranked, Candidates, TopFor, Grows, UnderCap;
    if c.None? {
      NotRanked(true, its, job, floors, it);
    } else {
      CandidateOrigin(true, its, job, floors, c.value);
      RankedIsStableSort(Candidates(true, its, job, floors));
      assert c.value in multiset(Candidates(true, its, job, floors));
    }
  }

  /** The pass leaves a tensor its width or gives it an earned one at a positive cost; a wider earned one
      that costs more does not fit any more. What is not open to the pass keeps its width. */
  lemma SensitivityTier(its: seq<Item>, job: Job, it: Item)
    requires WellFormed(its, job) && it in its
    ensures var floors, mid := AfterFloor(its, job), AfterSensitivity(its, job);
      var from, to := WidthIn(it, job, floors), WidthIn(it, job, mid);
      && (to == from || (Layered(it) && Earned(to, from, it.score, job.maxScore)
                         && Delta(it.tensor.shape, Standard(from), Standard(to)) > 0))
      && (Layered(it) ==> forall v: nat :: to < v && Earned(v, from, it.score, job.maxScore) ==>
            var delta := Delta(it.tensor.shape, Standard(to), Standard(v));
            delta <= 0 || !Fits(mid.bits + delta, job.cap))
  {
    var floors, mid, cs := AfterFloor(its, job), AfterSensitivity(its, job), SensitivityOrder(its, job);
    var from, to := WidthIn(it, job, floors), WidthIn(it, job, mid);
    if !Layered(it) {
      assert SensitivityCand(it, job, floors).None?;
      hide Cost, AfterFloor, Tensors, Greedy, Ranked, Candidates;
      NotRanked(true, its, job, floors, it);
      GreedyElsewhere(cs, job, floors, None, it.tensor.path);
    } else {
      var c := Cand(it.score, it.tensor, from, TopFor(from, it.score, job.maxScore));
      CandidateOf(its, job, it);
      forall v: nat | from < v && ValidBits(v)
        ensures Earned(v, from, it.score, job.maxScore) <==> v <= c.top
      {
        EarnedIsOffered(v, from, it.score, job.maxScore);
      }
      hide Cost, AfterFloor, Tensors, Greedy, Ranked, Candidates, TopFor, Earned, Current, ValidBits;
      if c.top <= from {
        GreedyElsewhere(cs, job, floors, None, it.tensor.path);
      } else {
        var k :| 0 <= k < |cs| && cs[k] == c;
        TurnIsWidest(cs, k, Tensors(its), job, floors, None);
        forall v: nat | to < v && Earned(v, from, it.score, job.maxScore)
          ensures Delta(it.tensor.shape, Standard(to), Standard(v)) <= 0
               || !Fits(mid.bits + Delta(it.tensor.shape, Standard(to), Standard(v)), job.cap)
        {
          assert from < v && ValidBits(v) by { assert Earned(v, from, it.score, job.maxScore); }
          SensitivityIsMaximal(its, job, c, v);
        }
      }
    }
  }

  // ---------- with room in the cap ----------

  /** The width the placing passes come to when the cap leaves room: 8 bits for a mandatory name, else
      the protection floor, each if wider than the base and dearer. */
  function FloorWidth(it: Item, job: Job): nat {
    var base := job.base;
    if !it.skip && it.mandatory && base.bits < 8 && Delta(it.tensor.shape, base, Standard(8)) > 0 then 8
    else if it.floor.Some? && base.bits < it.floor.value.bits && Delta(it.tensor.shape, base, it.floor.value) > 0
    then it.floor.value.bits else base.bits
  }

  /** With room for it, the mandatory boost of a tensor is placed if it costs anything. */
  lemma MandatoryWithRoom(its: seq<Item>, job: Job, it: Item)
    requires WellFormed(its, job) && it in its && !it.routed && Fits(Room(its, job), job.cap)
    ensures it.tensor.path in AfterMandatory(its, job).boosts <==>
      Offer(MandatoryPass, it, job).Some? && Delta(it.tensor.shape, job.base, Standard(8)) > 0
    ensures it.tensor.path in AfterMandatory(its, job).boosts ==> WidthIn(it, job, AfterFloor(its, job)) == 8
  {
    var path, out := it.tensor.path, AfterMandatory(its, job);
    LedgerIdentity(its, job, 0.0);
    MandatoryPossible(its, job);
    PlacingServes(MandatoryPass, its, job, Empty(its, job), it);
    hide Cost, PlaceAll, Tensors, Room, TotalBits, Repriced, AllPossible, Possible, AfterFloor, AfterExperts, AfterMandatory;
    if Offer(MandatoryPass, it, job).Some? {
      MandatoryStays(its, job, it);
      if path !in out.boosts && Delta(it.tensor.shape, job.base, Standard(8)) > 0 {
        assert Possible(it, job, Ledger(map[path := Standard(8)], 0)) by { OfferIsPossible(MandatoryPass, it, job); }
        OneMorePossible(its, job, out, it, Standard(8), 0);
        PlacedFits(its, job, out, it, Standard(8));
      }
    }
  }

  lemma OfferIsPossible(p: Pass, it: Item, job: Job)
    requires !it.routed && Offer(p, it, job).Some?
    requires it.floor.Some? ==>
      it.floor.value.bits <= 8 && it.floor.value in {Standard(it.floor.value.bits), Affinely(it.floor.value.bits, 128)}
    ensures Possible(it, job, Ledger(map[it.tensor.path := Offer(p, it, job).value], 0))
  {
  }

  lemma FloorWithRoom(its: seq<Item>, job: Job, it: Item)
    requires WellFormed(its, job) && it in its && !it.routed && Fits(Room(its, job), job.cap)
    requires it.tensor.path !in AfterMandatory(its, job).boosts
    ensures WidthIn(it, job, AfterFloor(its, job)) ==
      if it.floor.Some? && job.base.bits < it.floor.value.bits && Delta(it.tensor.shape, job.base, it.floor.value) > 0
      then it.floor.value.bits else job.base.bits
  {
    var path, q, out := it.tensor.path, Offer(FloorPass, it, job), AfterFloor(its, job);
    LedgerIdentity(its, job, 0.0);
    FloorsPossible(its, job);
    PlacingServes(ExpertPass, its, job, AfterMandatory(its, job), it);
    PlacingServes(FloorPass, its, job, AfterExperts(its, job), it);
    hide Cost, PlaceAll, Tensors, Room, TotalBits, Repriced, AllPossible, Possible, AfterFloor, AfterExperts, AfterMandatory;
    if q.Some? && Delta(it.tensor.shape, job.base, q.value) > 0 && path !in out.boosts {
      OfferIsPossible(FloorPass, it, job);
      OneMorePossible(its, job, out, it, q.value, 0);
      PlacedFits(its, job, out, it, q.value);
    }
  }

  lemma FloorWidthIs(its: seq<Item>, job: Job, it: Item)
    requires WellFormed(its, job) && it in its && !it.routed && Fits(Room(its, job), job.cap)
    ensures WidthIn(it, job, AfterFloor(its, job)) == FloorWidth(it, job)
  {
    hide Cost, Tensors, Room, AfterFloor, AfterMandatory, WellFormed;
    MandatoryWithRoom(its, job, it);
    if it.tensor.path !in AfterMandatory(its, job).boosts { FloorWithRoom(its, job, it); }
  }

  /** With room for it, a layered tensor can be raised from wherever the passes have left it. */
  lemma RaiseFits(its: seq<Item>, job: Job, led: Ledger, it: Item, w: nat)
    requires WellFormed(its, job) && it in its && Layered(it) && Spent(its, job, led)
    requires WidthIn(it, job, led) < w <= 8
    ensures led.bits + Delta(it.tensor.shape, Standard(WidthIn(it, job, led)), Standard(w)) <= Room(its, job)
  {
    var ts, floors, t, was := Tensors(its), AfterFloor(its, job), it.tensor, WidthIn(it, job, led);
    var next := Ledger(led.boosts[t.path := Standard(w)], led.bits + Delta(t.shape, Standard(was), Standard(w)));
    ItemTensors(its);
    assert Possible(it, job, Ledger(map[t.path := Standard(w)], 0));
    hide Cost, TotalBits, Repriced, AfterFloor, Tensors, Grows, Room, AllPossible, Possible;
    OneMorePossible(its, job, led, it, Standard(w), next.bits);
    TotalBitsAt(ts, job.base, led.boosts, t, Standard(w));
    RepricedAt(ts, job, floors, led, t, w, next.bits);
    SpentBound(its, job, floors, next);
  }

  lemma FlatCost(t: Tensor, a: nat, b: nat)
    requires !Grouped(t)
    ensures Delta(t.shape, Standard(a), Standard(b)) == 0
  {
    if |t.shape| >= 2 && RowLength(t.shape) % 64 == 0 {
      assert (0 * a + 7) / 8 == 0 && (0 * b + 7) / 8 == 0;
    }
  }

  /** With room in the cap, the pass takes every layered matrix in whole groups to the widest width its
      score earns over what the placing passes left it; a tensor whose cost does not depend on the width
      keeps it. */
  lemma TierWithRoom(its: seq<Item>, job: Job, it: Item)
    requires WellFormed(its, job) && it in its && Layered(it) && Fits(Room(its, job), job.cap)
    ensures var from, to := FloorWidth(it, job), WidthIn(it, job, AfterSensitivity(its, job));
      && (to == from || Earned(to, from, it.score, job.maxScore))
      && (if Grouped(it.tensor) then forall v: nat :: Earned(v, from, it.score, job.maxScore) ==> v <= to else to == from)
  {
    var mid := AfterSensitivity(its, job);
    var from, to := FloorWidth(it, job), WidthIn(it, job, mid);
    FloorWidthIs(its, job, it);
    SensitivityTier(its, job, it);
    PassesSpend(its, job, 0.0);
    hide Cost, Spent, Tensors, Room, WellFormed, AfterFloor, AfterSensitivity, FloorWidth, Earned, Grows;
    if !Grouped(it.tensor) {
      FlatCost(it.tensor, from, to);
    } else {
      hide Grouped;
      forall v: nat | Earned(v, from, it.score, job.maxScore) ensures v <= to {
        if to < v {
          assert v <= 8 by { assert ValidBits(v) by { EarnedIsWide(v, from, it.score, job.maxScore); } }
          RaiseFits(its, job, mid, it, v);
          Dearer(it.tensor, to, Standard(v));
        }
      }
    }
  }

  lemma EarnedIsWide(v: nat, cur: nat, score: real, best: real)
    requires Earned(v, cur, score, best)
    ensures cur < v && ValidBits(v)
  {
  }

  /** Two tensors that differ in nothing but their names, layers and scores. */
  predicate Alike(a: Item, b: Item) {
    a.tensor.shape == b.tensor.shape && a.floor == b.floor && a.mandatory == b.mandatory && a.skip == b.skip
  }

  /** With room in the cap, of two layered tensors alike the one with the better score never ends up
      narrower. */
  lemma BetterScoreIsWider(its: seq<Item>, job: Job, a: Item, b: Item)
    requires WellFormed(its, job) && Fits(Room(its, job), job.cap)
    requires a in its && b in its && Layered(a) && Layered(b) && Alike(a, b) && a.score <= b.score
    ensures WidthIn(a, job, AfterSensitivity(its, job)) <= WidthIn(b, job, AfterSensitivity(its, job))
  {
    hide AfterSensitivity, Room, WellFormed, Cost, Earned, WidthIn, Grouped;
    assert FloorWidth(a, job) == FloorWidth(b, job);
    assert Grouped(a.tensor) == Grouped(b.tensor) by { GroupedByShape(a.tensor, b.tensor); }
    var from, to := FloorWidth(a, job), WidthIn(a, job, AfterSensitivity(its, job));
    hide FloorWidth;
    TierWithRoom(its, job, a);
    TierWithRoom(its, job, b);
    if to != from { MoreIsEarned(to, from, a.score, b.score, job.maxScore); }
    FromBelow(its, job, b);
  }

  lemma GroupedByShape(a: Tensor, b: Tensor)
    requires a.shape == b.shape
    ensures Grouped(a) == Grouped(b)
  {
  }

  lemma MoreIsEarned(v: nat, cur: nat, low: real, high: real, best: real)
    requires Earned(v, cur, low, best) && low <= high
    ensures Earned(v, cur, high, best)
  {
  }

  lemma FromBelow(its: seq<Item>, job: Job, it: Item)
    requires WellFormed(its, job) && it in its && Layered(it) && Fits(Room(its, job), job.cap)
    ensures FloorWidth(it, job) <= WidthIn(it, job, AfterSensitivity(its, job))
  {
    hide AfterSensitivity, Room, WellFormed, Cost, WidthIn, FloorWidth;
    TierWithRoom(its, job, it);
  }
}
