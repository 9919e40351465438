/** What a finished plan guarantees. */
module PlanProofs {
  import opened Common
  import opened QuantNames
  import opened QuantCost
  import opened QuantPlan

  ghost predicate Distinct(ts: seq<Tensor>) {
    forall i, j :: 0 <= i < j < |ts| ==> ts[i].path != ts[j].path
  }

  /** The named tensors of a dictionary, with supported floor widths in groups of 64 or 128. */
  ghost predicate WellFormed(its: seq<Item>, job: Job) {
    && Distinct(Tensors(its))
    && ValidBits(job.base.bits) && job.base == Standard(job.base.bits)
    && (job.experts35 ==> job.base.bits == 3)
    && forall it <- its :: it.floor.Some? ==>
         ValidBits(it.floor.value.bits) && it.floor.value in {Standard(it.floor.value.bits), Affinely(it.floor.value.bits, 128)}
  }

  // ---------- the total under one more boost ----------

  lemma {:induction false} TotalBitsElsewhere(ts: seq<Tensor>, base: Quant, boosts: map<string, Quant>, path: string, q: Quant)
    requires forall t <- ts :: t.path != path
    ensures TotalBits(ts, base, boosts[path := q]) == TotalBits(ts, base, boosts)
  {
    hide Cost;
    if ts != [] { TotalBitsElsewhere(ts[1..], base, boosts, path, q); }
  }

  /** Boosting one tensor moves the recomputed total by the change in its own cost. */
  lemma {:induction false} TotalBitsAt(ts: seq<Tensor>, base: Quant, boosts: map<string, Quant>, t: Tensor, q: Quant)
    requires Distinct(ts) && t in ts
    ensures TotalBits(ts, base, boosts[t.path := q])
         == TotalBits(ts, base, boosts) + Delta(t.shape, Chosen(boosts, t.path, base), q)
  {
    hide Cost;
    if ts[0] == t {
      TotalBitsElsewhere(ts[1..], base, boosts, t.path, q);
    } else {
      assert t in ts[1..];
      var k :| 0 <= k < |ts| - 1 && ts[1..][k] == t;
      assert ts[0].path != ts[k + 1].path;
      TotalBitsAt(ts[1..], base, boosts, t, q);
    }
  }

  // ---------- growth ----------

  /** From a to b nothing is taken back: entries stay, no width shrinks, new entries exceed the base. */
  ghost predicate Grows(job: Job, a: Ledger, b: Ledger) {
    && a.bits <= b.bits
    && (forall p <- a.boosts :: p in b.boosts && a.boosts[p].bits <= b.boosts[p].bits)
    && (forall p <- b.boosts :: p in a.boosts || job.base.bits < b.boosts[p].bits)
    && (forall p <- b.boosts :: (p in a.boosts && a.boosts[p] == b.boosts[p]) || ValidBits(b.boosts[p].bits))
  }

  /** From a to b nothing was spent beyond the cap. */
  ghost predicate UnderCap(job: Job, a: Ledger, b: Ledger) { a.bits == b.bits || Fits(b.bits, job.cap) }

  /** How far the running total is from the recomputed one. */
  function Drift(ts: seq<Tensor>, job: Job, led: Ledger): int {
    led.bits - TotalBits(ts, job.base, led.boosts)
  }

  lemma {:induction false} PlacingGrows(p: Pass, its: seq<Item>, job: Job, led: Ledger)
    requires ValidBits(job.base.bits) && (job.experts35 ==> job.base.bits == 3)
    requires forall it <- its :: it.floor.Some? ==> ValidBits(it.floor.value.bits)
    ensures Grows(job, led, PlaceAll(p, its, job, led))
    ensures !p.ExpertPass? ==> UnderCap(job, led, PlaceAll(p, its, job, led))
  {
    hide Cost;
    if its != [] {
      var next := Place(p, its[0], job, led);
      assert Grows(job, led, next);
      PlacingGrows(p, its[1..], job, next);
    }
  }

  /** A placing pass prices its boosts against the base, which is what they replace. */
  lemma {:induction false} PlacingIsExact(p: Pass, its: seq<Item>, ts: seq<Tensor>, job: Job, led: Ledger)
    requires Distinct(ts) && forall it <- its :: it.tensor in ts
    ensures Drift(ts, job, PlaceAll(p, its, job, led)) == Drift(ts, job, led)
  {
    hide Cost, TotalBits;
    if its != [] {
      var next := Place(p, its[0], job, led);
      if next != led {
        TotalBitsAt(ts, job.base, led.boosts, its[0].tensor, Offer(p, its[0], job).value);
      }
      PlacingIsExact(p, its[1..], ts, job, next);
    }
  }

  /** Who a pass may add, and why a tensor it wanted may have been left out. */
  lemma {:induction false} PlacingServes(p: Pass, its: seq<Item>, job: Job, led: Ledger, it: Item)
    requires Distinct(Tensors(its)) && it in its && it.tensor.path !in led.boosts
    requires ValidBits(job.base.bits) && (job.experts35 ==> job.base.bits == 3)
    requires forall i <- its :: i.floor.Some? ==> ValidBits(i.floor.value.bits)
    ensures var out := PlaceAll(p, its, job, led);
      match Offer(p, it, job)
      case None => it.tensor.path !in out.boosts
      case Some(q) =>
        var delta := Delta(it.tensor.shape, job.base, q);
        if it.tensor.path in out.boosts then out.boosts[it.tensor.path] == q && delta > 0
        else delta <= 0 || (!p.ExpertPass? && !Fits(out.bits + delta, job.cap))
  {
    hide Cost;
    var next := Place(p, its[0], job, led);
    assert Tensors(its[1..]) == Tensors(its)[1..];
    PlacingGrows(p, its[1..], job, next);
    if its[0] == it {
      PlacingElsewhere(p, its[1..], job, next, it.tensor.path);
    } else {
      var k :| 0 <= k < |its| && its[k] == it;
      assert Tensors(its)[0].path != Tensors(its)[k].path;
      assert it in its[1..] by { assert its[1..][k - 1] == it; }
      PlacingServes(p, its[1..], job, next, it);
    }
  }

  lemma {:induction false} PlacingElsewhere(p: Pass, its: seq<Item>, job: Job, led: Ledger, path: string)
    requires path in led.boosts || forall t <- Tensors(its) :: t.path != path
    ensures var out := PlaceAll(p, its, job, led);
      path in out.boosts <==> path in led.boosts
    ensures path in led.boosts ==> PlaceAll(p, its, job, led).boosts[path] == led.boosts[path]
  {
    hide Cost;
    if its != [] {
      assert Tensors(its)[0] == its[0].tensor;
      assert Tensors(its[1..]) == Tensors(its)[1..];
      PlacingElsewhere(p, its[1..], job, Place(p, its[0], job, led), path);
    }
  }

  // ---------- ranking ----------

  /** One candidate per tensor. */
  ghost predicate Apart(cs: seq<Cand>) { forall i, j :: 0 <= i < j < |cs| ==> cs[i].tensor.path != cs[j].tensor.path }

  /** The candidates of one score, in the order they appear. */
  function AtScore(cs: seq<Cand>, score: real): seq<Cand> {
    if cs == [] then []
    else (if cs[0].score == score then [cs[0]] else []) + AtScore(cs[1..], score)
  }

  ghost predicate Descending(cs: seq<Cand>) {
    forall i, j :: 0 <= i < j < |cs| ==> cs[j].score <= cs[i].score
  }

  lemma {:induction false} InsertContents(c: Cand, cs: seq<Cand>)
    ensures multiset(Insert(c, cs)) == multiset{c} + multiset(cs)
  {
    if cs != [] && c.score < cs[0].score {
      InsertContents(c, cs[1..]);
      assert cs == [cs[0]] + cs[1..];
    }
  }

  lemma {:induction false} InsertBelow(c: Cand, cs: seq<Cand>, top: real)
    requires c.score <= top && forall x <- cs :: x.score <= top
    ensures forall x <- Insert(c, cs) :: x.score <= top
  {
    if cs != [] && c.score < cs[0].score { InsertBelow(c, cs[1..], top); }
  }

  lemma {:induction false} InsertKeepsOrder(c: Cand, cs: seq<Cand>)
    requires Descending(cs)
    ensures Descending(Insert(c, cs))
  {
    if cs != [] && c.score < cs[0].score {
      InsertKeepsOrder(c, cs[1..]);
      InsertBelow(c, cs[1..], cs[0].score);
    }
  }

  lemma {:induction false} InsertIsStable(c: Cand, cs: seq<Cand>, s: real)
    ensures AtScore(Insert(c, cs), s) == AtScore([c] + cs, s)
  {
    assert ([c] + cs)[1..] == cs;
    if cs != [] && c.score < cs[0].score {
      InsertIsStable(c, cs[1..], s);
      assert ([c] + cs[1..])[1..] == cs[1..];
      assert ([cs[0]] + Insert(c, cs[1..]))[1..] == Insert(c, cs[1..]);
    }
  }

  /** Ranking is a stable descending sort. */
  lemma {:induction false} RankedIsStableSort(cs: seq<Cand>)
    ensures Descending(Ranked(cs))
    ensures multiset(Ranked(cs)) == multiset(cs)
    ensures forall s: real :: AtScore(Ranked(cs), s) == AtScore(cs, s)
  {
    if cs != [] {
      RankedIsStableSort(cs[1..]);
      InsertContents(cs[0], Ranked(cs[1..]));
      InsertKeepsOrder(cs[0], Ranked(cs[1..]));
      assert cs == [cs[0]] + cs[1..];
      forall s: real ensures AtScore(Ranked(cs), s) == AtScore(cs, s) {
        InsertIsStable(cs[0], Ranked(cs[1..]), s);
        assert ([cs[0]] + Ranked(cs[1..]))[1..] == Ranked(cs[1..]);
      }
    }
  }

  lemma {:induction false} InsertDistinct(c: Cand, cs: seq<Cand>)
    requires Apart([c] + cs)
    ensures Apart(Insert(c, cs))
    ensures forall x :: x in Insert(c, cs) <==> x == c || x in cs
  {
    var all := [c] + cs;
    if cs != [] && c.score < cs[0].score {
      forall i, j | 0 <= i < j < |cs| ensures cs[i].tensor.path != cs[j].tensor.path {
        assert all[i + 1].tensor.path != all[j + 1].tensor.path;
      }
      var short := [c] + cs[1..];
      forall i, j | 0 <= i < j < |short| ensures short[i].tensor.path != short[j].tensor.path {
        assert short[j] == all[j + 1] && short[i] == if i == 0 then all[0] else all[i + 1];
      }
      InsertDistinct(c, cs[1..]);
      var rest := Insert(c, cs[1..]);
      forall x | x in rest ensures x.tensor.path != cs[0].tensor.path {
        if x == c {
          assert all[0].tensor.path != all[1].tensor.path;
        } else {
          var k :| 0 <= k < |cs| - 1 && cs[1..][k] == x;
          assert cs[k + 1] == x;
        }
      }
    }
  }

  lemma {:induction false} RankedDistinct(cs: seq<Cand>)
    requires Apart(cs)
    ensures Apart(Ranked(cs))
    ensures forall x :: x in Ranked(cs) <==> x in cs
  {
    if cs != [] {
      RankedDistinct(cs[1..]);
      var head := [cs[0]] + Ranked(cs[1..]);
      forall i, j | 0 <= i < j < |head| ensures head[i].tensor.path != head[j].tensor.path {
        assert Ranked(cs[1..])[j - 1] == head[j];
        if i == 0 {
          assert head[j] in cs[1..];
          var k :| 0 <= k < |cs| - 1 && cs[1..][k] == head[j];
          assert cs[0].tensor.path != cs[k + 1].tensor.path;
        } else {
          assert Ranked(cs[1..])[i - 1] == head[i];
        }
      }
      InsertDistinct(cs[0], Ranked(cs[1..]));
    }
  }

  // ---------- greedy raising ----------

  /** Candidates made for this ledger: one per tensor, with the widths the ledger records. */
  ghost predicate Current(cs: seq<Cand>, ts: seq<Tensor>, job: Job, led: Ledger) {
    && Apart(cs)
    && forall c <- cs :: c.tensor in ts && Chosen(led.boosts, c.tensor.path, job.base).bits == c.cur
                         && job.base.bits <= c.cur
  }

  lemma {:induction false} GreedyElsewhere(cs: seq<Cand>, job: Job, led: Ledger, goal: Option<real>, path: string)
    requires forall c <- cs :: c.tensor.path != path
    ensures var out := Greedy(cs, job, led, goal);
      && (path in out.boosts <==> path in led.boosts)
      && (path in led.boosts ==> out.boosts[path] == led.boosts[path])
  {
    hide Cost;
    if cs != [] && !Reached(led.bits, goal) {
      GreedyElsewhere(cs[1..], job, Raise(cs[0], job, led), goal, path);
    }
  }

  lemma RaiseStep(cs: seq<Cand>, ts: seq<Tensor>, job: Job, led: Ledger)
    requires cs != [] && Current(cs, ts, job, led)
    ensures Current(cs[1..], ts, job, Raise(cs[0], job, led))
    ensures forall c <- cs[1..] :: c.tensor.path != cs[0].tensor.path
  {
    hide Cost;
    forall c | c in cs[1..] ensures c.tensor.path != cs[0].tensor.path {
      var k :| 0 <= k < |cs| - 1 && cs[1..][k] == c;
      assert cs[0].tensor.path != cs[k + 1].tensor.path;
    }
  }

  lemma {:induction false} GreedyGrows(cs: seq<Cand>, ts: seq<Tensor>, job: Job, led: Ledger, goal: Option<real>)
    requires Current(cs, ts, job, led)
    ensures Grows(job, led, Greedy(cs, job, led, goal))
    ensures UnderCap(job, led, Greedy(cs, job, led, goal))
  {
    hide Cost;
    if cs != [] && !Reached(led.bits, goal) {
      var next := Raise(cs[0], job, led);
      RaiseStep(cs, ts, job, led);
      assert Grows(job, led, next);
      GreedyGrows(cs[1..], ts, job, next, goal);
    }
  }

  /** This tensor's entry has been replaced. */
  predicate Changed(t: Tensor, before: Ledger, after: Ledger) {
    t.path in before.boosts && t.path in after.boosts && after.boosts[t.path] != before.boosts[t.path]
  }

  /** What re-pricing in groups of 64 gets wrong: over the entries replaced since, the cost recorded for
      the old entry minus the cost of its width in groups of 64. */
  function Repriced(ts: seq<Tensor>, before: Ledger, after: Ledger): int {
    if ts == [] then 0
    else
      var t := ts[0];
      (if Changed(t, before, after) then Delta(t.shape, Standard(before.boosts[t.path].bits), before.boosts[t.path]) else 0)
        + Repriced(ts[1..], before, after)
  }

  /** Since then, entries have only been added or widened, in groups of 64. */
  ghost predicate Widened(before: Ledger, after: Ledger) {
    && before.boosts.Keys <= after.boosts.Keys
    && forall p <- after.boosts ::
         || (p in before.boosts && after.boosts[p] == before.boosts[p])
         || (after.boosts[p] == Standard(after.boosts[p].bits)
             && (p in before.boosts ==> before.boosts[p].bits < after.boosts[p].bits))
  }

  lemma {:induction false} RepricedElsewhere(ts: seq<Tensor>, before: Ledger, led: Ledger, path: string, q: Quant, bits: int)
    requires forall t <- ts :: t.path != path
    ensures Repriced(ts, before, Ledger(led.boosts[path := q], bits)) == Repriced(ts, before, led)
  {
    hide Cost;
    if ts != [] { RepricedElsewhere(ts[1..], before, led, path, q, bits); }
  }

  /** A tensor is re-priced wrongly once, when its old entry goes. */
  lemma {:induction false} RepricedAt(ts: seq<Tensor>, job: Job, before: Ledger, led: Ledger, t: Tensor, w: nat, bits: int)
    requires Distinct(ts) && t in ts && Widened(before, led) && job.base == Standard(job.base.bits)
    requires Chosen(led.boosts, t.path, job.base).bits < w
    ensures var was := Chosen(led.boosts, t.path, job.base);
      Repriced(ts, before, Ledger(led.boosts[t.path := Standard(w)], bits))
        == Repriced(ts, before, led) + Delta(t.shape, Standard(was.bits), was)
  {
    hide Cost;
    if ts[0] == t {
      RepricedElsewhere(ts[1..], before, led, t.path, Standard(w), bits);
    } else {
      assert t in ts[1..];
      var k :| 0 <= k < |ts| - 1 && ts[1..][k] == t;
      assert ts[0].path != ts[k + 1].path;
      RepricedAt(ts[1..], job, before, led, t, w, bits);
    }
  }

  lemma RaiseDrift(c: Cand, ts: seq<Tensor>, job: Job, before: Ledger, led: Ledger)
    requires Distinct(ts) && c.tensor in ts && Widened(before, led) && job.base == Standard(job.base.bits)
    requires Chosen(led.boosts, c.tensor.path, job.base).bits == c.cur
    ensures var next := Raise(c, job, led);
      && Widened(before, next)
      && Drift(ts, job, next) - Repriced(ts, before, next) == Drift(ts, job, led) - Repriced(ts, before, led)
  {
    hide Cost, TotalBits, Repriced;
    var next, pick := Raise(c, job, led), Widest(c, c.top, led.bits, job.cap);
    if pick.Some? {
      TotalBitsAt(ts, job.base, led.boosts, c.tensor, Standard(pick.value));
      RepricedAt(ts, job, before, led, c.tensor, pick.value, next.bits);
    }
  }

  /** Greedy raising moves the running total away from the recomputed one by exactly that error. */
  lemma {:induction false} GreedyDrift(cs: seq<Cand>, ts: seq<Tensor>, job: Job, before: Ledger, led: Ledger, goal: Option<real>)
    requires Distinct(ts) && Current(cs, ts, job, led) && Widened(before, led) && job.base == Standard(job.base.bits)
    ensures var out := Greedy(cs, job, led, goal);
      && Widened(before, out)
      && Drift(ts, job, out) - Repriced(ts, before, out) == Drift(ts, job, led) - Repriced(ts, before, led)
  {
    hide Cost, TotalBits, Repriced, Raise, Widened;
    if cs != [] && !Reached(led.bits, goal) {
      RaiseStep(cs, ts, job, led);
      RaiseDrift(cs[0], ts, job, before, led);
      GreedyDrift(cs[1..], ts, job, before, Raise(cs[0], job, led), goal);
    }
  }

  /** Running on a longer list is running on its first part, then on the rest. */
  lemma {:induction false} GreedySplits(xs: seq<Cand>, ys: seq<Cand>, job: Job, led: Ledger, goal: Option<real>)
    ensures Greedy(xs + ys, job, led, goal) == Greedy(ys, job, Greedy(xs, job, led, goal), goal)
  {
    hide Cost;
    if xs == [] {
      assert xs + ys == ys;
    } else if !Reached(led.bits, goal) {
      assert (xs + ys)[1..] == xs[1..] + ys;
      GreedySplits(xs[1..], ys, job, Raise(xs[0], job, led), goal);
    }
  }

  /** Each candidate gets, for good, the widest admissible width given what the candidates ranked
      before it have spent: none if the goal was reached by then. */
  lemma TurnIsWidest(cs: seq<Cand>, k: nat, ts: seq<Tensor>, job: Job, led: Ledger, goal: Option<real>)
    requires k < |cs| && Current(cs, ts, job, led)
    ensures var spent := Greedy(cs[..k], job, led, goal).bits;
      var pick := if Reached(spent, goal) then None else Widest(cs[k], cs[k].top, spent, job.cap);
      Chosen(Greedy(cs, job, led, goal).boosts, cs[k].tensor.path, job.base).bits
        == if pick.Some? then pick.value else cs[k].cur
  {
    var c, mid := cs[k], Greedy(cs[..k], job, led, goal);
    assert cs == cs[..k] + cs[k..] && cs[k..][1..] == cs[k + 1..];
    GreedySplits(cs[..k], cs[k..], job, led, goal);
    OthersDiffer(cs, k);
    GreedyElsewhere(cs[..k], job, led, goal, c.tensor.path);
    hide Cost, Admissible, Widest;
    GreedyElsewhere(cs[k + 1..], job, Raise(c, job, mid), goal, c.tensor.path);
  }

  lemma OthersDiffer(cs: seq<Cand>, k: nat)
    requires k < |cs| && Apart(cs)
    ensures forall d :: d in cs[..k] || d in cs[k + 1..] ==> d.tensor.path != cs[k].tensor.path
  {
    forall d | d in cs[..k] || d in cs[k + 1..] ensures d.tensor.path != cs[k].tensor.path {
      if d in cs[..k] {
        var j :| 0 <= j < k && cs[..k][j] == d;
        assert cs[j].tensor.path != cs[k].tensor.path;
      } else {
        var j :| 0 <= j < |cs| - k - 1 && cs[k + 1..][j] == d;
        assert cs[k].tensor.path != cs[j + k + 1].tensor.path;
      }
    }
  }

  /** When the goal was not reached, no candidate can be raised any further. */
  lemma {:induction false} GreedyIsMaximal(cs: seq<Cand>, ts: seq<Tensor>, job: Job, led: Ledger, goal: Option<real>, c: Cand)
    requires Current(cs, ts, job, led) && c in cs
    requires !Reached(Greedy(cs, job, led, goal).bits, goal)
    ensures var out := Greedy(cs, job, led, goal);
      forall w: nat :: w <= c.top ==>
        !Admissible(c.(cur := Chosen(out.boosts, c.tensor.path, job.base).bits), w, out.bits, job.cap)
  {
    hide Cost;
    GreedyGrows(cs, ts, job, led, goal);
    var next := Raise(cs[0], job, led);
    RaiseStep(cs, ts, job, led);
    GreedyGrows(cs[1..], ts, job, next, goal);
    if cs[0] == c {
      GreedyElsewhere(cs[1..], job, next, goal, c.tensor.path);
      var out := Greedy(cs[1..], job, next, goal);
      var now := Chosen(out.boosts, c.tensor.path, job.base).bits;
      forall w: nat | w <= c.top ensures !Admissible(c.(cur := now), w, out.bits, job.cap) {
        assert now < w ==> !Admissible(c, w, led.bits, job.cap);
      }
    } else {
      assert c in cs[1..];
      GreedyIsMaximal(cs[1..], ts, job, next, goal, c);
    }
  }
}
