/** When a wide floor is replaced, and so when the plan's total is right: for limits that leave room for
    the dearest entry that each tensor can get. */
module PlanRoom {
  import opened Common
  import opened QuantNames
  import opened QuantCost
  import opened QuantPlan
  import opened PlanProofs
  import opened PlanTheorems
  import opened PlanLedger

  // ---------- what a tensor can come to cost ----------

  /** Boosted by none of the placing passes, nor open to the sensitivity pass: it stays at the base. */
  predicate AtBase(it: Item, job: Job) {
    && Offer(MandatoryPass, it, job).None? && Offer(ExpertPass, it, job).None? && Offer(FloorPass, it, job).None?
    && (it.routed || it.skip || it.layer.None?)
  }

  /** A routed expert that can only be boosted as such. */
  predicate ExpertOnly(it: Item, job: Job) {
    it.routed && Offer(MandatoryPass, it, job).None? && Offer(ExpertPass, it, job).Some?
  }

  /** The most a tensor can be charged: at the base, or as a boosted expert, or in 8 bits; or, where a
      floor in groups of 128 can only be kept in fp16 and is then re-priced, 24 bits a weight. */
  function Dearest(it: Item, job: Job): int {
    var shape := it.tensor.shape;
    if AtBase(it, job) then Cost(shape, job.base)
    else if ExpertOnly(it, job) then Max(Cost(shape, job.base), Cost(shape, Standard(job.base.bits + 1)))
    else if OddRow(it.tensor) && Offer(FloorPass, it, job).Some? && it.floor.value.group == 128 then 24 * Product(shape)
    else Cost(shape, Standard(8))
  }

  function Room(its: seq<Item>, job: Job): int {
    if its == [] then 0 else Dearest(its[0], job) + Room(its[1..], job)
  }

  /** An entry that the passes can make. */
  ghost predicate Possible(it: Item, job: Job, led: Ledger) {
    it.tensor.path in led.boosts ==>
      var q := led.boosts[it.tensor.path];
      && !AtBase(it, job) && q.bits <= 8
      && if ExpertOnly(it, job) then q == Standard(job.base.bits + 1)
         else q == Standard(q.bits) || (q == Affinely(q.bits, 128) && Offer(FloorPass, it, job) == Some(q))
  }

  ghost predicate AllPossible(its: seq<Item>, job: Job, led: Ledger) { forall it <- its :: Possible(it, job, led) }

  lemma Narrower(t: Tensor, bits: nat)
    requires bits <= 8
    ensures Cost(t.shape, Standard(bits)) <= Cost(t.shape, Standard(8))
    ensures Cost(t.shape, Standard(bits)) <= 16 * Product(t.shape)
    ensures OddRow(t) ==> 2 * Cost(t.shape, Standard(bits)) <= 17 * Product(t.shape)
  {
    var n := Product(t.shape);
    if |t.shape| >= 2 && RowLength(t.shape) % 64 == 0 {
      AffineDensity(t.shape, bits, 64);
      AffineDensity(t.shape, 8, 64);
      hide Cost, Product;
      Scale(bits, 8, n);
      assert n * bits <= n * 8;
    }
  }

  /** An entry in groups of 128 costs less than in groups of 64, or what fp16 costs. */
  lemma WideCost(t: Tensor, bits: nat)
    requires bits <= 8
    ensures Cost(t.shape, Affinely(bits, 128)) <= if OddRow(t) then 16 * Product(t.shape) else Cost(t.shape, Standard(bits))
  {
    WideErrorIs(t, bits);
    hide Cost, Product;
    if OddRow(t) { FullPrice(t, bits); }
  }

  lemma FullPrice(t: Tensor, bits: nat)
    requires OddRow(t)
    ensures Cost(t.shape, Affinely(bits, 128)) == 16 * Product(t.shape)
  {
  }

  /** The error of one tensor: none or a saving, except on a row with an odd number of groups. */
  lemma ErrorBound(it: Item, job: Job, floors: Ledger, led: Ledger)
    requires Possible(it, job, floors) && Widened(floors, led)
    ensures var e, n := Repriced([it.tensor], floors, led), Product(it.tensor.shape);
      if OddRow(it.tensor) && Changed(it.tensor, floors, led) && floors.boosts[it.tensor.path].group == 128 then 2 * e <= 31 * n
      else e <= 0
  {
    var t := it.tensor;
    assert [t][1..] == [] && t in [t];
    hide Cost, Product;
    if Changed(t, floors, led) {
      var b := floors.boosts[t.path].bits;
      WideErrorIs(t, b);
      if OddRow(t) { Scale(31 - 2 * b, 31, Product(t.shape) / 2); }
    }
  }

  lemma ItemBound(it: Item, job: Job, floors: Ledger, led: Ledger)
    requires job.base == Standard(job.base.bits) && job.base.bits <= 8
    requires Possible(it, job, floors) && Possible(it, job, led) && Widened(floors, led)
    ensures Cost(it.tensor.shape, Chosen(led.boosts, it.tensor.path, job.base)) + Repriced([it.tensor], floors, led)
         <= Dearest(it, job)
  {
    var t, n := it.tensor, Product(it.tensor.shape);
    var q := Chosen(led.boosts, t.path, job.base);
    ErrorBound(it, job, floors, led);
    Narrower(t, q.bits);
    if q.group == 128 { WideCost(t, q.bits); }
    hide Cost, Product, Repriced;
  }

  lemma {:induction false} SpentBound(its: seq<Item>, job: Job, floors: Ledger, led: Ledger)
    requires job.base == Standard(job.base.bits) && job.base.bits <= 8
    requires AllPossible(its, job, floors) && AllPossible(its, job, led) && Widened(floors, led)
    ensures TotalBits(Tensors(its), job.base, led.boosts) + Repriced(Tensors(its), floors, led) <= Room(its, job)
  {
    var ts := Tensors(its);
    if its != [] {
      assert ts[1..] == Tensors(its[1..]) && ts[0] == its[0].tensor;
      ItemBound(its[0], job, floors, led);
      RepricedSplits(ts, floors, led);
      hide Cost, Repriced, Dearest, Possible, Tensors, Widened;
      SpentBound(its[1..], job, floors, led);
    } else {
      assert ts == [];
    }
  }

  // ---------- the entries of the passes ----------

  lemma MandatoryPossible(its: seq<Item>, job: Job)
    requires WellFormed(its, job)
    ensures AllPossible(its, job, AfterMandatory(its, job))
  {
    hide Cost, PlaceAll, Tensors, AfterMandatory;
    forall it | it in its ensures Possible(it, job, AfterMandatory(its, job)) {
      if it.tensor.path in AfterMandatory(its, job).boosts { MandatoryEntry(its, job, it); }
    }
  }

  lemma MandatoryEntry(its: seq<Item>, job: Job, it: Item)
    requires WellFormed(its, job) && it in its && it.tensor.path in AfterMandatory(its, job).boosts
    ensures Offer(MandatoryPass, it, job) == Some(Standard(8)) && AfterMandatory(its, job).boosts[it.tensor.path] == Standard(8)
  {
    hide Cost, PlaceAll, Tensors;
    PlacingServes(MandatoryPass, its, job, Empty(its, job), it);
  }

  lemma FloorsPossible(its: seq<Item>, job: Job)
    requires WellFormed(its, job)
    ensures AllPossible(its, job, AfterFloor(its, job))
  {
    forall it | it in its ensures Possible(it, job, AfterFloor(its, job)) { FloorPossible(its, job, it); }
  }

  lemma FloorPossible(its: seq<Item>, job: Job, it: Item)
    requires WellFormed(its, job) && it in its
    ensures Possible(it, job, AfterFloor(its, job))
    ensures it.tensor.path in AfterFloor(its, job).boosts ==>
      Offer(MandatoryPass, it, job).Some? || Offer(ExpertPass, it, job).Some? || Offer(FloorPass, it, job).Some?
  {
    hide Cost, PlaceAll, Tensors;
    var path := it.tensor.path;
    PlacingServes(MandatoryPass, its, job, Empty(its, job), it);
    if path in AfterMandatory(its, job).boosts {
      PlacingElsewhere(ExpertPass, its, job, AfterMandatory(its, job), path);
      PlacingElsewhere(FloorPass, its, job, AfterExperts(its, job), path);
    } else {
      PlacingServes(ExpertPass, its, job, AfterMandatory(its, job), it);
      if path in AfterExperts(its, job).boosts {
        PlacingElsewhere(FloorPass, its, job, AfterExperts(its, job), path);
      } else {
        PlacingServes(FloorPass, its, job, AfterExperts(its, job), it);
      }
    }
  }

  /** What a greedy pass leaves alone keeps its entry; the rest keeps its floor or is widened in groups
      of 64. */
  lemma GreedyPossible(sensitivity: bool, its: seq<Item>, job: Job, floors: Ledger, led: Ledger, goal: Option<real>)
    requires WellFormed(its, job) && AllPossible(its, job, floors) && AllPossible(its, job, led)
    requires var out := Greedy(Ranked(Candidates(sensitivity, its, job, led)), job, led, goal);
      Widened(floors, out) && Grows(job, led, out)
    ensures AllPossible(its, job, Greedy(Ranked(Candidates(sensitivity, its, job, led)), job, led, goal))
  {
    var cs := Ranked(Candidates(sensitivity, its, job, led));
    var out := Greedy(cs, job, led, goal);
    hide Cost, Greedy, Ranked, Candidates, Tensors;
    forall it | it in its ensures Possible(it, job, out) {
      assert Possible(it, job, led) && Possible(it, job, floors);
      if AtBase(it, job) || ExpertOnly(it, job) {
        NotRanked(sensitivity, its, job, led, it);
        GreedyElsewhere(cs, job, led, goal, it.tensor.path);
      }
    }
  }

  /** The ledgers of the greedy passes: their entries, and that their total is within the room. */
  ghost predicate Spent(its: seq<Item>, job: Job, led: Ledger) {
    var floors := AfterFloor(its, job);
    && led.bits == TotalBits(Tensors(its), job.base, led.boosts) + Repriced(Tensors(its), floors, led)
    && Widened(floors, led) && Grows(job, floors, led) && AllPossible(its, job, floors) && AllPossible(its, job, led)
  }

  lemma PassesSpend(its: seq<Item>, job: Job, goal: real)
    requires WellFormed(its, job)
    ensures Spent(its, job, AfterSensitivity(its, job)) && Spent(its, job, Plan(its, job, goal))
    ensures Grows(job, AfterSensitivity(its, job), Plan(its, job, goal))
  {
    var floors, mid, plan := AfterFloor(its, job), AfterSensitivity(its, job), Plan(its, job, goal);
    LedgerIdentity(its, job, goal);
    PassesGrow(its, job, goal);
    FloorsPossible(its, job);
    assert mid == Greedy(Ranked(Candidates(true, its, job, floors)), job, floors, None);
    assert plan == Greedy(Ranked(Candidates(false, its, job, mid)), job, mid, Some(goal));
    hide AfterFloor, AfterSensitivity, Plan, AfterMandatory, AfterExperts, Greedy, Ranked, Candidates, TotalBits, Repriced, Grows,
      Widened, AllPossible, WellFormed, Tensors;
    GrowsOn(job, floors, mid, plan);
    GreedyPossible(true, its, job, floors, floors, None);
    GreedyPossible(false, its, job, floors, mid, Some(goal));
  }

  lemma SpentInRoom(its: seq<Item>, job: Job, led: Ledger)
    requires WellFormed(its, job) && Spent(its, job, led)
    ensures led.bits <= Room(its, job)
  {
    hide TotalBits, Repriced, AllPossible, Widened, Tensors, Grows, AfterFloor, Room;
    SpentBound(its, job, AfterFloor(its, job), led);
  }

  // ---------- when a wide floor is replaced ----------

  /** A wide floor, on a tensor that gets no mandatory boost. */
  predicate Exposed(it: Item, base: Quant) { Wide(it, base) && !(it.mandatory && !it.skip) }

  /** Wider floors cost more than the base, in either kind of groups. */
  lemma Dearer(t: Tensor, low: nat, q: Quant)
    requires Grouped(t) && low < q.bits <= 8 && q in {Standard(q.bits), Affinely(q.bits, 128)}
    ensures Delta(t.shape, Standard(low), q) > 0
  {
    var n := Product(t.shape);
    AffineDensity(t.shape, low, 64);
    AffineDensity(t.shape, q.bits, 64);
    WideErrorIs(t, q.bits);
    if OddRow(t) { OddErrorBounds(n, q.bits); }
    hide Cost, Product;
    Compare(n, n * low, n * q.bits, Cost(t.shape, Standard(low)), Cost(t.shape, Standard(q.bits)), 64);
    OneStep(n, low, q.bits);
  }

  /** With room for it, a boost that the placing passes offer to a grouped matrix is placed. */
  lemma PlacedFits(its: seq<Item>, job: Job, out: Ledger, it: Item, q: Quant)
    requires WellFormed(its, job) && it in its && it.tensor.path !in out.boosts && Drift(Tensors(its), job, out) == 0
    requires AllPossible(its, job, out) && AllPossible(its, job, Ledger(out.boosts[it.tensor.path := q], 0))
    ensures out.bits + Delta(it.tensor.shape, job.base, q) <= Room(its, job)
  {
    var ts, t := Tensors(its), it.tensor;
    var led := Ledger(out.boosts[t.path := q], 0);
    ItemTensors(its);
    hide Cost, TotalBits, Tensors, Room, AllPossible;
    TotalBitsAt(ts, job.base, out.boosts, t, q);
    NothingRepriced(ts, led);
    SpentBound(its, job, led, led);
  }

  /** One more possible entry. */
  lemma OneMorePossible(its: seq<Item>, job: Job, out: Ledger, it: Item, q: Quant, bits: int)
    requires WellFormed(its, job) && it in its && AllPossible(its, job, out)
    requires Possible(it, job, Ledger(map[it.tensor.path := q], 0))
    ensures AllPossible(its, job, Ledger(out.boosts[it.tensor.path := q], bits))
  {
    var led := Ledger(out.boosts[it.tensor.path := q], bits);
    hide Tensors, AtBase, ExpertOnly;
    forall o | o in its ensures Possible(o, job, led) {
      assert Possible(o, job, out);
      if o.tensor.path == it.tensor.path { SameItem(its, o, it); }
    }
  }

  lemma ExposedIsPlaced(its: seq<Item>, job: Job, it: Item)
    requires WellFormed(its, job) && it in its && Exposed(it, job.base) && Fits(Room(its, job), job.cap)
    ensures it.tensor.path in AfterFloor(its, job).boosts && AfterFloor(its, job).boosts[it.tensor.path] == it.floor.value
  {
    var path, q, out := it.tensor.path, it.floor.value, AfterFloor(its, job);
    LedgerIdentity(its, job, 0.0);
    FloorsPossible(its, job);
    hide Cost, PlaceAll, Tensors, Grouped, Room, TotalBits;
    PlacingServes(MandatoryPass, its, job, Empty(its, job), it);
    PlacingServes(ExpertPass, its, job, AfterMandatory(its, job), it);
    PlacingServes(FloorPass, its, job, AfterExperts(its, job), it);
    Dearer(it.tensor, job.base.bits, q);
    if path !in out.boosts {
      assert !Fits(out.bits + Delta(it.tensor.shape, job.base, q), job.cap);
      OneMorePossible(its, job, out, it, q, 0);
      PlacedFits(its, job, out, it, q);
    }
  }

  lemma MandatoryIsPlaced(its: seq<Item>, job: Job, it: Item)
    requires WellFormed(its, job) && it in its && Wide(it, job.base) && it.mandatory && !it.skip
    requires Fits(Room(its, job), job.cap)
    ensures it.tensor.path in AfterFloor(its, job).boosts && AfterFloor(its, job).boosts[it.tensor.path] == Standard(8)
  {
    var path, out := it.tensor.path, AfterMandatory(its, job);
    LedgerIdentity(its, job, 0.0);
    MandatoryPossible(its, job);
    MandatoryStays(its, job, it);
    Dearer(it.tensor, job.base.bits, Standard(8));
    assert Possible(it, job, Ledger(map[path := Standard(8)], 0));
    hide Cost, PlaceAll, Tensors, Wide, Room, TotalBits, Repriced, AllPossible, Possible, AfterFloor, AfterExperts, AfterMandatory;
    if path !in out.boosts {
      OneMorePossible(its, job, out, it, Standard(8), 0);
      PlacedFits(its, job, out, it, Standard(8));
    }
  }

  lemma MandatoryStays(its: seq<Item>, job: Job, it: Item)
    requires WellFormed(its, job) && it in its && Offer(MandatoryPass, it, job).Some?
    ensures var path, out, delta := it.tensor.path, AfterMandatory(its, job), Delta(it.tensor.shape, job.base, Standard(8));
      if path in out.boosts then path in AfterFloor(its, job).boosts && AfterFloor(its, job).boosts[path] == Standard(8)
      else delta <= 0 || !Fits(out.bits + delta, job.cap)
  {
    var path, out := it.tensor.path, AfterMandatory(its, job);
    hide Cost, PlaceAll, Tensors;
    PlacingServes(MandatoryPass, its, job, Empty(its, job), it);
    if path in out.boosts {
      PlacingElsewhere(ExpertPass, its, job, out, path);
      PlacingElsewhere(FloorPass, its, job, AfterExperts(its, job), path);
    }
  }

  /** With room for it, a placed floor can still be raised. */
  lemma RaisedFits(its: seq<Item>, job: Job, led: Ledger, it: Item, w: nat)
    requires WellFormed(its, job) && it in its && it.floor.Some? && it.floor.value.bits < w <= 8 && Exposed(it, job.base)
    requires Spent(its, job, led) && it.tensor.path in led.boosts && led.boosts[it.tensor.path] == it.floor.value
    ensures led.bits + Delta(it.tensor.shape, Standard(it.floor.value.bits), Standard(w)) <= Room(its, job)
  {
    var ts, floors, t, q := Tensors(its), AfterFloor(its, job), it.tensor, it.floor.value;
    var next := Ledger(led.boosts[t.path := Standard(w)], led.bits + Delta(t.shape, Standard(q.bits), Standard(w)));
    ItemTensors(its);
    assert Possible(it, job, Ledger(map[t.path := Standard(w)], 0));
    hide Cost, TotalBits, Repriced, AfterFloor, Tensors, Grows, Room, AllPossible, Possible;
    OneMorePossible(its, job, led, it, Standard(w), next.bits);
    TotalBitsAt(ts, job.base, led.boosts, t, Standard(w));
    RepricedAt(ts, job, floors, led, t, w, next.bits);
    SpentBound(its, job, floors, next);
  }

  /** The sensitivity pass will want to raise it. */
  predicate Sensible(it: Item, job: Job) {
    && it.floor.Some? && it.layer.Some? && !it.skip
    && (if it.floor.value.bits < 6 then it.floor.value.bits + 1 else 8) <= TopFor(it.floor.value.bits, it.score, job.maxScore)
  }

  /** The ledger still records the floor, and there is room to raise it. */
  ghost predicate StillAtFloor(its: seq<Item>, job: Job, led: Ledger, it: Item) {
    && it.floor.Some? && it.tensor.path in led.boosts && led.boosts[it.tensor.path] == it.floor.value
    && forall w: nat :: it.floor.value.bits < w <= 8 && ValidBits(w) ==>
         Admissible(Cand(it.score, it.tensor, it.floor.value.bits, 8), w, led.bits, job.cap)
  }

  lemma RoomAtFloor(its: seq<Item>, job: Job, led: Ledger, it: Item)
    requires WellFormed(its, job) && it in its && Exposed(it, job.base) && Fits(Room(its, job), job.cap)
    requires Spent(its, job, led) && it.tensor.path in led.boosts && led.boosts[it.tensor.path] == it.floor.value
    ensures StillAtFloor(its, job, led, it)
  {
    hide Cost, Spent, Tensors, Room, Grouped, WellFormed;
    forall w: nat | it.floor.value.bits < w <= 8 && ValidBits(w)
      ensures Admissible(Cand(it.score, it.tensor, it.floor.value.bits, 8), w, led.bits, job.cap)
    {
      RaisedFits(its, job, led, it, w);
      Dearer(it.tensor, it.floor.value.bits, Standard(w));
    }
  }

  /** The sensitivity pass does not leave a sensible candidate at its floor. */
  lemma SensibleIsRaised(its: seq<Item>, job: Job, it: Item)
    requires WellFormed(its, job) && it in its && Wide(it, job.base) && Sensible(it, job)
    requires it.tensor.path in AfterFloor(its, job).boosts && AfterFloor(its, job).boosts[it.tensor.path] == it.floor.value
    ensures !StillAtFloor(its, job, AfterSensitivity(its, job), it)
  {
    var floors, b := AfterFloor(its, job), it.floor.value.bits;
    var c := Cand(it.score, it.tensor, b, TopFor(b, it.score, job.maxScore));
    var w := if b < 6 then b + 1 else 8;
    assert SensitivityCand(it, job, floors) == Some(c);
    assert forall p <- floors.boosts :: job.base.bits <= floors.boosts[p].bits by { EntriesAboveBase(its, job); }
    assert ValidBits(b);
    hide Cost, AfterFloor, Tensors, Grouped, TopFor, Greedy, Ranked, Candidates;
    CandidateOrigin(true, its, job, floors, c);
    OrderIsCurrent(true, its, job, floors);
    SensitivityIsMaximal(its, job, c, w);
    var led := AfterSensitivity(its, job);
    assert StillAtFloor(its, job, led, it) ==> Admissible(Cand(it.score, it.tensor, b, 8), w, led.bits, job.cap);
  }

  /** Nor does a plan that misses its goal. */
  lemma UnreachedIsRaised(its: seq<Item>, job: Job, goal: real, it: Item)
    requires WellFormed(its, job) && it in its && Wide(it, job.base) && !Reached(Plan(its, job, goal).bits, Some(goal))
    ensures !StillAtFloor(its, job, Plan(its, job, goal), it)
  {
    var plan := Plan(its, job, goal);
    hide Cost, Tensors, Grouped, Plan;
    if it.tensor.path in plan.boosts { PlanIsMaximal(its, job, goal, it, 8); }
    assert StillAtFloor(its, job, plan, it) ==>
      Admissible(Cand(it.score, it.tensor, it.floor.value.bits, 8), 8, plan.bits, job.cap);
  }

  lemma ChangedLater(job: Job, t: Tensor, floors: Ledger, mid: Ledger, plan: Ledger)
    requires Widened(floors, mid) && Grows(job, mid, plan) && t.path in floors.boosts && Changed(t, floors, mid)
    ensures Changed(t, floors, plan)
  {
  }

  lemma ExposedIsMissed(its: seq<Item>, job: Job, goal: real, it: Item)
    requires WellFormed(its, job) && it in its && Exposed(it, job.base) && Fits(Room(its, job), job.cap)
    requires goal > Room(its, job) as real || Sensible(it, job)
    ensures Missed(it.tensor, AfterFloor(its, job), Plan(its, job, goal))
  {
    var floors, mid, plan := AfterFloor(its, job), AfterSensitivity(its, job), Plan(its, job, goal);
    ExposedIsPlaced(its, job, it);
    PassesSpend(its, job, goal);
    hide Cost, TotalBits, Repriced, AfterFloor, AfterSensitivity, Plan, Tensors, Room, Grouped, WellFormed, StillAtFloor, Sensible,
      AllPossible;
    if Sensible(it, job) {
      SensibleIsRaised(its, job, it);
      if mid.boosts[it.tensor.path] == it.floor.value { RoomAtFloor(its, job, mid, it); }
      ChangedLater(job, it.tensor, floors, mid, plan);
    } else {
      SpentInRoom(its, job, plan);
      UnreachedIsRaised(its, job, goal, it);
      if plan.boosts[it.tensor.path] == it.floor.value { RoomAtFloor(its, job, plan, it); }
    }
  }

  /** With room for it, a mandatory boost leaves no place for a floor. */
  lemma MissedIsExposed(its: seq<Item>, job: Job, goal: real, it: Item)
    requires WellFormed(its, job) && it in its && Fits(Room(its, job), job.cap)
    requires Missed(it.tensor, AfterFloor(its, job), Plan(its, job, goal))
    ensures Exposed(it, job.base)
  {
    PassesSpend(its, job, goal);
    hide Cost, TotalBits, Repriced, AfterFloor, AfterSensitivity, Plan, Tensors, Room, AllPossible;
    MissedIsWide(its, job, it, Plan(its, job, goal));
    if it.mandatory && !it.skip { MandatoryIsPlaced(its, job, it); }
  }

  /** With room for the dearest entry of every tensor, and with a goal out of reach or every exposed floor
      sensible: the final total is right if and only if no floor is exposed. All of this can be told
      from the shapes, the floors, the scores and the limits, before planning. */
  lemma ExactIffNoneExposed(its: seq<Item>, job: Job, goal: real)
    requires WellFormed(its, job) && OneSign(its, job.base) && Fits(Room(its, job), job.cap)
    requires goal > Room(its, job) as real || forall it <- its :: Exposed(it, job.base) ==> Sensible(it, job)
    ensures Balanced(its, job, Plan(its, job, goal)) <==> forall it <- its :: !Exposed(it, job.base)
  {
    var floors, plan := AfterFloor(its, job), Plan(its, job, goal);
    ExactIffNoneMissed(its, job, goal);
    ItemTensors(its);
    hide AfterFloor, Plan, Tensors, Missed, Exposed, Sensible, WellFormed, OneSign, Room, Balanced;
    forall it | it in its && Exposed(it, job.base) ensures Missed(it.tensor, floors, plan) {
      ExposedIsMissed(its, job, goal, it);
    }
    forall t | t in Tensors(its) && Missed(t, floors, plan) ensures exists it <- its :: Exposed(it, job.base) {
      var it := ItemOf(its, t);
      MissedIsExposed(its, job, goal, it);
    }
  }

  // ---------- when the goal is reached at the base ----------

  /** The sensitivity pass leaves any other floor where it is. */
  lemma InsensibleStays(its: seq<Item>, job: Job, it: Item)
    requires WellFormed(its, job) && it in its && Wide(it, job.base) && !Sensible(it, job)
    requires it.tensor.path in AfterFloor(its, job).boosts && AfterFloor(its, job).boosts[it.tensor.path] == it.floor.value
    ensures !Changed(it.tensor, AfterFloor(its, job), AfterSensitivity(its, job))
  {
    var floors, mid, b := AfterFloor(its, job), AfterSensitivity(its, job), it.floor.value.bits;
    var cs, c := SensitivityOrder(its, job), SensitivityCand(it, job, floors);
    LedgerIdentity(its, job, 0.0);
    assert ValidBits(b);
    assert c.Some? ==> b == 6 && c.value.cur == 6 && c.value.top == 7;
    hide Cost, AfterFloor, Tensors, Grouped, TopFor, Greedy, Ranked, Candidates, TotalBits, Repriced;
    if c.None? {
      NotRanked(true, its, job, floors, it);
      GreedyElsewhere(cs, job, floors, None, it.tensor.path);
    } else {
      CandidateOrigin(true, its, job, floors, c.value);
      assert forall p <- floors.boosts :: job.base.bits <= floors.boosts[p].bits by { EntriesAboveBase(its, job); }
      OrderIsCurrent(true, its, job, floors);
      var k :| 0 <= k < |cs| && cs[k] == c.value;
      TurnIsWidest(cs, k, Tensors(its), job, floors, None);
    }
  }

  /** With a goal that the base already reaches there is no fallback pass, and the final total is right
      if and only if no floor is both exposed and sensible. */
  lemma ExactIffNoneSensible(its: seq<Item>, job: Job, goal: real)
    requires WellFormed(its, job) && OneSign(its, job.base) && Fits(Room(its, job), job.cap)
    requires Reached(Empty(its, job).bits, Some(goal))
    ensures Balanced(its, job, Plan(its, job, goal)) <==> forall it <- its :: !(Exposed(it, job.base) && Sensible(it, job))
  {
    var floors, plan := AfterFloor(its, job), Plan(its, job, goal);
    NoFallback(its, job, goal);
    ExactIffNoneMissed(its, job, goal);
    ItemTensors(its);
    hide AfterFloor, AfterSensitivity, Plan, Tensors, Exposed, Sensible, WellFormed, OneSign, Room, Balanced;
    forall it | it in its && Exposed(it, job.base) && Sensible(it, job) ensures Missed(it.tensor, floors, plan) {
      ExposedIsMissed(its, job, goal, it);
    }
    forall t | t in Tensors(its) && Missed(t, floors, plan) ensures exists it <- its :: Exposed(it, job.base) && Sensible(it, job) {
      var it := ItemOf(its, t);
      MissedIsExposed(its, job, goal, it);
      ExposedIsPlaced(its, job, it);
      if !Sensible(it, job) { ExposedStays(its, job, it); }
    }
  }

  lemma ExposedStays(its: seq<Item>, job: Job, it: Item)
    requires WellFormed(its, job) && it in its && Exposed(it, job.base) && !Sensible(it, job) && Fits(Room(its, job), job.cap)
    ensures !Missed(it.tensor, AfterFloor(its, job), AfterSensitivity(its, job))
  {
    ExposedIsPlaced(its, job, it);
    hide AfterFloor, AfterSensitivity, Tensors, Sensible, WellFormed, Room, Wide;
    assert Wide(it, job.base);
    InsensibleStays(its, job, it);
  }

  lemma NoFallback(its: seq<Item>, job: Job, goal: real)
    requires WellFormed(its, job) && Reached(Empty(its, job).bits, Some(goal))
    ensures Plan(its, job, goal) == AfterSensitivity(its, job)
  {
    var s0, s1, s2, s3, s4 := Empty(its, job), AfterMandatory(its, job), AfterExperts(its, job), AfterFloor(its, job),
                              AfterSensitivity(its, job);
    PassesGrow(its, job, goal);
    assert s0.bits <= s1.bits <= s2.bits <= s3.bits <= s4.bits;
    hide AfterMandatory, AfterExperts, AfterFloor, AfterSensitivity, Empty, Ranked, Candidates, Cost;
  }
}
