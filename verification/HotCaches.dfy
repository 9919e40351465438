/** Shedding hot caches (omlx/process_memory_enforcer.py, shed_hot_caches). */
module HotCaches {
  import opened Common

  /** One hot cache: its size, and how many bytes it frees and queues when asked for an amount. */
  datatype HotCache = HotCache(size: nat, respond: int -> (nat, nat))

  function InsertBySize(c: HotCache, cs: seq<HotCache>): seq<HotCache> {
    if cs == [] || cs[0].size <= c.size then [c] + cs else [cs[0]] + InsertBySize(c, cs[1..])
  }

  function LargestFirst(cs: seq<HotCache>): seq<HotCache> {
    if cs == [] then [] else InsertBySize(cs[0], LargestFirst(cs[1..]))
  }

  function Gain(c: HotCache, amount: int): nat { c.respond(amount).0 + c.respond(amount).1 }

  function Sizes(cs: seq<HotCache>): nat { if cs == [] then 0 else cs[0].size + Sizes(cs[1..]) }

  lemma {:induction false} SizesInserted(c: HotCache, cs: seq<HotCache>)
    ensures Sizes(InsertBySize(c, cs)) == c.size + Sizes(cs)
    ensures multiset(InsertBySize(c, cs)) == multiset{c} + multiset(cs)
    ensures forall x :: x in InsertBySize(c, cs) <==> x == c || x in cs
  {
    if cs != [] && c.size < cs[0].size {
      SizesInserted(c, cs[1..]);
      assert cs == [cs[0]] + cs[1..];
    }
  }

  lemma {:induction false} LargestFirstKeeps(cs: seq<HotCache>)
    ensures Sizes(LargestFirst(cs)) == Sizes(cs) && multiset(LargestFirst(cs)) == multiset(cs)
    ensures forall x :: x in LargestFirst(cs) <==> x in cs
  {
    if cs != [] {
      LargestFirstKeeps(cs[1..]);
      SizesInserted(cs[0], LargestFirst(cs[1..]));
      assert cs == [cs[0]] + cs[1..];
    }
  }

  /** A cache that frees or queues what it is asked for, as far as its size allows. */
  ghost predicate Honest(c: HotCache) {
    forall amount: int :: amount > 0 ==> Gain(c, amount) >= Min(amount, c.size)
  }

  /** What asking the caches in turn, each for what is still missing, comes up with. */
  function Shed(cs: seq<HotCache>, needed: int): nat {
    if cs == [] || needed <= 0 then 0 else Gain(cs[0], needed) + Shed(cs[1..], needed - Gain(cs[0], needed))
  }

  /** If every cache does its part, so does the whole: it comes up with the amount needed or with
      everything there is. */
  lemma {:induction false} SheddingSuffices(cs: seq<HotCache>, needed: int)
    requires forall c <- cs :: Honest(c)
    ensures Shed(cs, needed) >= Min(needed, Sizes(cs))
  {
    if cs != [] && needed > 0 {
      assert cs[0] in cs;
      SheddingSuffices(cs[1..], needed - Gain(cs[0], needed));
    }
  }

  ghost predicate Falling(cs: seq<HotCache>) { forall i, j :: 0 <= i < j < |cs| ==> cs[j].size <= cs[i].size }

  /** Every cache once, the largest first. */
  lemma {:induction false} LargestFirstSorts(cs: seq<HotCache>)
    ensures Falling(LargestFirst(cs)) && multiset(LargestFirst(cs)) == multiset(cs)
  {
    LargestFirstKeeps(cs);
    if cs != [] {
      LargestFirstSorts(cs[1..]);
      InsertedSorted(cs[0], LargestFirst(cs[1..]));
    }
  }

  lemma {:induction false} InsertedSorted(c: HotCache, cs: seq<HotCache>)
    requires Falling(cs)
    ensures Falling(InsertBySize(c, cs))
  {
    if cs != [] && c.size < cs[0].size {
      InsertedSorted(c, cs[1..]);
      SizesInserted(c, cs[1..]);
      assert InsertBySize(c, cs) == [cs[0]] + InsertBySize(c, cs[1..]);
      hide InsertBySize;
      LargestInFront(cs[0], InsertBySize(c, cs[1..]));
    }
  }

  lemma LargestInFront(c: HotCache, cs: seq<HotCache>)
    requires Falling(cs) && forall x <- cs :: x.size <= c.size
    ensures Falling([c] + cs)
  {
  }

  /** shed_hot_caches: the largest cache first, stopping as soon as nothing is missing. */
  method ShedHotCaches(caches: seq<HotCache>, needed: int) returns (freed: nat, queued: nat)
    ensures freed + queued == Shed(LargestFirst(caches), needed)
    ensures needed <= 0 ==> freed == queued == 0
    ensures (forall c <- caches :: Honest(c)) ==> freed + queued >= Min(needed, Sizes(caches))
  {
    freed, queued := 0, 0;
    var order := LargestFirst(caches);
    LargestFirstKeeps(caches);
    if forall c <- caches :: Honest(c) { SheddingSuffices(order, needed); }
    hide LargestFirst, Honest, Sizes;
    if needed <= 0 { return; }
    var i := 0;
    while i < |order| && needed - freed - queued > 0
      invariant 0 <= i <= |order|
      invariant freed + queued + Shed(order[i..], needed - freed - queued) == Shed(order, needed)
    {
      var missing := needed - freed - queued;
      assert order[i..][1..] == order[i + 1..];
      var (f, q) := order[i].respond(missing);
      freed, queued := freed + f, queued + q;
      i := i + 1;
    }
  }
}
