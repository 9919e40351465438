/** Notions shared by the models of several components. */
module Common {

  datatype Option<+T> = None | Some(value: T)

  type pos = n: int | 0 < n witness 1

  function Min(a: int, b: int): int { if a < b then a else b }

  function Max(a: int, b: int): int { if a < b then b else a }

  predicate EndsWith(s: string, suffix: string) {
    |suffix| <= |s| && s[|s| - |suffix|..] == suffix
  }

  /** The concatenation of a sequence of sequences. */
  function Flat<A>(chunks: seq<seq<A>>): seq<A> {
    if chunks == [] then [] else Flat(chunks[..|chunks| - 1]) + chunks[|chunks| - 1]
  }

  lemma {:induction false} FlatJoins<A>(a: seq<seq<A>>, b: seq<seq<A>>)
    ensures Flat(a + b) == Flat(a) + Flat(b)
  {
    if b == [] {
      assert a + b == a;
    } else {
      FlatJoins(a, b[..|b| - 1]);
      assert (a + b)[..|a + b| - 1] == a + b[..|b| - 1];
    }
  }

  lemma FlatAppend<A>(chunks: seq<seq<A>>, chunk: seq<A>)
    ensures Flat(chunks + [chunk]) == Flat(chunks) + chunk
  {
    assert (chunks + [chunk])[..|chunks|] == chunks;
  }

  lemma FlatFront<A>(chunks: seq<seq<A>>)
    requires chunks != []
    ensures Flat(chunks) == chunks[0] + Flat(chunks[1..])
  {
    FlatJoins([chunks[0]], chunks[1..]);
    assert Flat([chunks[0]]) == Flat([]) + chunks[0];
    assert [chunks[0]] + chunks[1..] == chunks;
  }

  lemma Regroup<A>(a: seq<A>, b: seq<A>, c: seq<A>)
    ensures a + b + c == a + (b + c)
  {
  }

  lemma LastApart<A>(a: seq<A>)
    requires a != []
    ensures a == a[..|a| - 1] + [a[|a| - 1]]
  {
  }

  lemma Scale(x: int, y: int, k: nat)
    ensures x <= y ==> x * k <= y * k
    ensures y * k - x * k == (y - x) * k
  {
    if x <= y { assert (y - x) * k >= 0; }
  }
}
