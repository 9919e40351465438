/** Dense tensors and the array operations a sanitizer uses, with their eager meaning. */
module Tensors {
  import opened Common

  datatype Tensor = Tensor(shape: seq<nat>, at: seq<nat> -> real)

  predicate InShape(ix: seq<nat>, shape: seq<nat>) {
    |ix| == |shape| && forall k :: 0 <= k < |ix| ==> ix[k] < shape[k]
  }

  /** Equal shapes and equal elements. */
  ghost predicate Same(a: Tensor, b: Tensor) {
    a.shape == b.shape && forall ix: seq<nat> :: InShape(ix, a.shape) ==> a.at(ix) == b.at(ix)
  }

  function Without(ix: seq<nat>, axis: nat): seq<nat>
    requires axis < |ix|
  {
    ix[..axis] + ix[axis + 1..]
  }

  function Inserted(shape: seq<nat>, axis: nat, n: nat): seq<nat>
    requires axis <= |shape|
  {
    shape[..axis] + [n] + shape[axis..]
  }

  /** All tensors have the shape of the first. */
  predicate Uniform(ts: seq<Tensor>) { ts != [] && forall i :: 0 <= i < |ts| ==> ts[i].shape == ts[0].shape }

  function Stack(ts: seq<Tensor>, axis: nat): Tensor
    requires Uniform(ts) && axis <= |ts[0].shape|
  {
    Tensor(Inserted(ts[0].shape, axis, |ts|),
           (ix: seq<nat>) => if axis < |ix| && ix[axis] < |ts| then ts[ix[axis]].at(Without(ix, axis)) else 0.0)
  }

  /** Shapes agree except along one axis. */
  predicate Joinable(ts: seq<Tensor>, axis: nat) {
    && ts != []
    && forall i :: 0 <= i < |ts| ==>
         |ts[i].shape| == |ts[0].shape| && axis < |ts[i].shape|
         && ts[i].shape == ts[0].shape[axis := ts[i].shape[axis]]
  }

  function Extent(ts: seq<Tensor>, axis: nat): nat
    requires forall i :: 0 <= i < |ts| ==> axis < |ts[i].shape|
  {
    if ts == [] then 0 else ts[0].shape[axis] + Extent(ts[1..], axis)
  }

  function JoinedAt(ts: seq<Tensor>, axis: nat, ix: seq<nat>): real
    requires forall i :: 0 <= i < |ts| ==> axis < |ts[i].shape|
  {
    if ts == [] || axis >= |ix| then 0.0
    else if ix[axis] < ts[0].shape[axis] then ts[0].at(ix)
    else JoinedAt(ts[1..], axis, ix[axis := ix[axis] - ts[0].shape[axis]])
  }

  function Concatenate(ts: seq<Tensor>, axis: nat): Tensor
    requires Joinable(ts, axis)
  {
    Tensor(ts[0].shape[axis := Extent(ts, axis)],
           (ix: seq<nat>) requires Joinable(ts, axis) => JoinedAt(ts, axis, ix))
  }

  /** axes lists every axis of a tensor of this rank once. */
  predicate Permutation(axes: seq<nat>, rank: nat) {
    && |axes| == rank && (forall i :: 0 <= i < rank ==> axes[i] < rank)
    && (forall i, j :: 0 <= i < j < rank ==> axes[i] != axes[j])
  }

  function IndexOf(axes: seq<nat>, a: nat): nat {
    if axes == [] || axes[0] == a then 0 else 1 + IndexOf(axes[1..], a)
  }

  function Transpose(t: Tensor, axes: seq<nat>): Tensor
    requires Permutation(axes, |t.shape|)
  {
    Tensor(seq(|axes|, i requires 0 <= i < |axes| && Permutation(axes, |t.shape|) => t.shape[axes[i]]),
           (ix: seq<nat>) => t.at(seq(|t.shape|, a =>
             if 0 <= a && IndexOf(axes, a) < |ix| then ix[IndexOf(axes, a)] else 0)))
  }

  /** list(range(rank)) with one element popped at src and inserted at dst. */
  function Moved(rank: nat, src: nat, dst: nat): seq<nat>
    requires src < rank && dst < rank
  {
    var rest := Identity(rank)[..src] + Identity(rank)[src + 1..];
    rest[..dst] + [src] + rest[dst..]
  }

  function Identity(rank: nat): (r: seq<nat>)
    ensures |r| == rank && forall i :: 0 <= i < rank ==> r[i] == i
  {
    seq(rank, i => i)
  }

  /** The element at ix is the one with ix[dst] taken out and put in at src. */
  function MoveAxis(t: Tensor, src: nat, dst: nat): Tensor
    requires src < |t.shape| && dst < |t.shape|
  {
    Tensor(Inserted(Without(t.shape, src), dst, t.shape[src]),
           (ix: seq<nat>) => if src < |ix| && dst < |ix| then t.at(Inserted(Without(ix, dst), src, ix[dst])) else 0.0)
  }

  lemma {:induction false} IndexOfEntry(axes: seq<nat>, p: nat)
    requires p < |axes| && forall i, j :: 0 <= i < j < |axes| ==> axes[i] != axes[j]
    ensures IndexOf(axes, axes[p]) == p
  {
    if p > 0 { IndexOfEntry(axes[1..], p - 1); }
  }

  /** Moving one axis is transposing along the list of axes with that entry popped and inserted. */
  lemma MovingTransposes(t: Tensor, src: nat, dst: nat)
    requires src < |t.shape| && dst < |t.shape|
    ensures Permutation(Moved(|t.shape|, src, dst), |t.shape|)
    ensures Same(MoveAxis(t, src, dst), Transpose(t, Moved(|t.shape|, src, dst)))
  {
    var rank := |t.shape|;
    var axes := Moved(rank, src, dst);
    MovedIsPermutation(rank, src, dst);
    var a, b := MoveAxis(t, src, dst), Transpose(t, axes);
    MovedShape(t.shape, src, dst);
    assert a.shape == b.shape;
    hide Inserted, Without, Moved, Identity, Permutation;
    forall ix: seq<nat> | InShape(ix, a.shape) ensures a.at(ix) == b.at(ix) {
      var from := seq(rank, k => if 0 <= k && IndexOf(axes, k) < |ix| then ix[IndexOf(axes, k)] else 0);
      MovedIndex(ix, src, dst);
      assert from == Inserted(Without(ix, dst), src, ix[dst]);
    }
  }

  lemma MovedShape(shape: seq<nat>, src: nat, dst: nat)
    requires src < |shape| && dst < |shape|
    ensures |Inserted(Without(shape, src), dst, shape[src])| == |Moved(|shape|, src, dst)| == |shape|
    ensures forall k :: 0 <= k < |shape| ==>
      Moved(|shape|, src, dst)[k] < |shape| && Inserted(Without(shape, src), dst, shape[src])[k] == shape[Moved(|shape|, src, dst)[k]]
  {
    forall k | 0 <= k < |shape| ensures Moved(|shape|, src, dst)[k] == MovedEntry(src, dst, k) { MovedAt(|shape|, src, dst, k); }
    hide Moved;
    forall k | 0 <= k < |shape| ensures Inserted(Without(shape, src), dst, shape[src])[k] == shape[MovedEntry(src, dst, k)] {}
  }

  lemma MovedIndex(ix: seq<nat>, src: nat, dst: nat)
    requires src < |ix| && dst < |ix|
    ensures |Without(ix, dst)| == |ix| - 1 && |Inserted(Without(ix, dst), src, ix[dst])| == |ix|
    ensures forall k :: 0 <= k < |ix| ==>
      var p := IndexOf(Moved(|ix|, src, dst), k); p < |ix| && Inserted(Without(ix, dst), src, ix[dst])[k] == ix[p]
  {
    forall k | 0 <= k < |ix|
      ensures var p := IndexOf(Moved(|ix|, src, dst), k); p < |ix| && Inserted(Without(ix, dst), src, ix[dst])[k] == ix[p]
    {
      MovedPosition(|ix|, src, dst, k);
    }
  }

  /** Where an axis goes. */
  lemma MovedPosition(rank: nat, src: nat, dst: nat, k: nat)
    requires src < rank && dst < rank && k < rank
    ensures var r := if k < src then k else k - 1;
      IndexOf(Moved(rank, src, dst), k) == if k == src then dst else if r < dst then r else r + 1
  {
    var r := if k < src then k else k - 1;
    var p := if k == src then dst else if r < dst then r else r + 1;
    MovedIsPermutation(rank, src, dst);
    assert Moved(rank, src, dst)[p] == k;
    IndexOfEntry(Moved(rank, src, dst), p);
  }

  lemma MovedIsPermutation(rank: nat, src: nat, dst: nat)
    requires src < rank && dst < rank
    ensures Permutation(Moved(rank, src, dst), rank)
    ensures Moved(rank, src, dst)[dst] == src
  {
    var axes := Moved(rank, src, dst);
    forall i | 0 <= i < rank ensures |axes| == rank && axes[i] == MovedEntry(src, dst, i) { MovedAt(rank, src, dst, i); }
    hide Moved;
  }

  /** The axis that comes to this place. */
  function MovedEntry(src: nat, dst: nat, i: nat): nat {
    if i == dst then src
    else
      var r := if i < dst then i else i - 1;
      if r < src then r else r + 1
  }

  lemma MovedAt(rank: nat, src: nat, dst: nat, i: nat)
    requires src < rank && dst < rank && i < rank
    ensures |Moved(rank, src, dst)| == rank && Moved(rank, src, dst)[i] == MovedEntry(src, dst, i)
  {
    var rest := Identity(rank)[..src] + Identity(rank)[src + 1..];
    var r := if i < dst then i else i - 1;
    assert i != dst ==> rest[r] == if r < src then r else r + 1;
  }

  /** The part of a tensor from index start along one axis. */
  function Slice(t: Tensor, axis: nat, start: nat, length: nat): Tensor
    requires axis < |t.shape|
  {
    Tensor(t.shape[axis := length],
           (ix: seq<nat>) => t.at(if axis < |ix| then ix[axis := ix[axis] + start] else ix))
  }

  /** Part i of n equal parts. */
  function Part(t: Tensor, axis: nat, i: nat, n: nat): Tensor
    requires axis < |t.shape| && n > 0
  {
    Slice(t, axis, i * (t.shape[axis] / n), t.shape[axis] / n)
  }

  /** Cutting a tensor in two along an axis and joining the slices gives the tensor back. */
  lemma SlicesJoin(t: Tensor, axis: nat, cut: nat)
    requires axis < |t.shape| && cut <= t.shape[axis]
    ensures var slices := [Slice(t, axis, 0, cut), Slice(t, axis, cut, t.shape[axis] - cut)];
      Joinable(slices, axis) && Same(Concatenate(slices, axis), t)
  {
    var first, second := Slice(t, axis, 0, cut), Slice(t, axis, cut, t.shape[axis] - cut);
    var slices := [first, second];
    assert slices[1..] == [second] && [second][1..] == [];
    assert Extent(slices[1..], axis) == second.shape[axis] + Extent([second][1..], axis);
    assert Extent(slices, axis) == first.shape[axis] + Extent(slices[1..], axis);
    assert first.shape[axis := t.shape[axis]] == t.shape;
    forall ix: seq<nat> | InShape(ix, t.shape) ensures Concatenate(slices, axis).at(ix) == t.at(ix) {
      assert Concatenate(slices, axis).at(ix) == JoinedAt(slices, axis, ix);
      if ix[axis] < cut {
        assert ix[axis := ix[axis] + 0] == ix;
      } else {
        var rest := ix[axis := ix[axis] - cut];
        assert first.shape[axis] == cut && second.shape[axis] == t.shape[axis] - cut;
        assert JoinedAt(slices, axis, ix) == JoinedAt(slices[1..], axis, rest);
        assert JoinedAt([second], axis, rest) == second.at(rest);
        assert rest[axis := rest[axis] + cut] == ix;
      }
    }
  }

  function Plus(t: Tensor, c: real): Tensor { Tensor(t.shape, (ix: seq<nat>) => t.at(ix) + c) }

  // ---------- stacking in chunks ----------

  /** Non-empty chunks of tensors of one shape. */
  predicate Chunked(chunks: seq<seq<Tensor>>, shape: seq<nat>) {
    forall i :: 0 <= i < |chunks| ==> chunks[i] != [] && forall j :: 0 <= j < |chunks[i]| ==> chunks[i][j].shape == shape
  }

  function Stacks(chunks: seq<seq<Tensor>>, shape: seq<nat>, axis: nat): (r: seq<Tensor>)
    requires Chunked(chunks, shape) && axis <= |shape|
    ensures |r| == |chunks|
    ensures forall i :: 0 <= i < |chunks| ==> Uniform(chunks[i]) && chunks[i][0].shape == shape && r[i] == Stack(chunks[i], axis)
  {
    if chunks == [] then []
    else
      assert chunks[0][0].shape == shape;
      [Stack(chunks[0], axis)] + Stacks(chunks[1..], shape, axis)
  }

  lemma {:induction false} FlatShape(chunks: seq<seq<Tensor>>, shape: seq<nat>)
    requires Chunked(chunks, shape)
    ensures forall j :: 0 <= j < |Flat(chunks)| ==> Flat(chunks)[j].shape == shape
    ensures chunks != [] ==> Flat(chunks) != []
  {
    if chunks != [] {
      FlatShape(chunks[1..], shape);
      FlatFront(chunks);
    }
  }

  lemma StacksJoin(chunks: seq<seq<Tensor>>, shape: seq<nat>, axis: nat)
    requires Chunked(chunks, shape) && axis <= |shape| && chunks != []
    ensures Joinable(Stacks(chunks, shape, axis), axis)
  {
    var ps := Stacks(chunks, shape, axis);
    forall i | 0 <= i < |ps|
      ensures |ps[i].shape| == |shape| + 1 && ps[i].shape == ps[0].shape[axis := ps[i].shape[axis]]
    {
      assert ps[i] == Stack(chunks[i], axis) && ps[0] == Stack(chunks[0], axis);
    }
  }

  lemma {:induction false} ChunkExtent(chunks: seq<seq<Tensor>>, shape: seq<nat>, axis: nat)
    requires Chunked(chunks, shape) && axis <= |shape|
    ensures forall i :: 0 <= i < |chunks| ==> axis < |Stacks(chunks, shape, axis)[i].shape|
    ensures Extent(Stacks(chunks, shape, axis), axis) == |Flat(chunks)|
  {
    if chunks != [] {
      ChunkExtent(chunks[1..], shape, axis);
      FlatFront(chunks);
      assert Stacks(chunks, shape, axis)[1..] == Stacks(chunks[1..], shape, axis);
      assert Stacks(chunks, shape, axis)[0] == Stack(chunks[0], axis);
    }
  }

  lemma {:induction false} ChunkedElement(chunks: seq<seq<Tensor>>, shape: seq<nat>, axis: nat, ix: seq<nat>)
    requires Chunked(chunks, shape) && axis <= |shape| && |ix| == |shape| + 1 && ix[axis] < |Flat(chunks)|
    requires forall i :: 0 <= i < |chunks| ==> axis < |Stacks(chunks, shape, axis)[i].shape|
    ensures JoinedAt(Stacks(chunks, shape, axis), axis, ix) == Flat(chunks)[ix[axis]].at(Without(ix, axis))
  {
    var ps := Stacks(chunks, shape, axis);
    FlatFront(chunks);
    assert ps[0] == Stack(chunks[0], axis) && ps[0].shape[axis] == |chunks[0]|;
    if ix[axis] >= |chunks[0]| {
      var jx := ix[axis := ix[axis] - |chunks[0]|];
      assert ps[1..] == Stacks(chunks[1..], shape, axis);
      ChunkedElement(chunks[1..], shape, axis, jx);
      assert Without(jx, axis) == Without(ix, axis);
    }
  }

  /** Stacking chunk by chunk and joining the partial stacks on the same axis is one big stack. */
  lemma ChunkedStack(chunks: seq<seq<Tensor>>, shape: seq<nat>, axis: nat)
    requires Chunked(chunks, shape) && axis <= |shape| && chunks != []
    ensures Joinable(Stacks(chunks, shape, axis), axis) && Uniform(Flat(chunks)) && Flat(chunks)[0].shape == shape
    ensures Same(Concatenate(Stacks(chunks, shape, axis), axis), Stack(Flat(chunks), axis))
  {
    StacksJoin(chunks, shape, axis);
    FlatShape(chunks, shape);
    ChunkExtent(chunks, shape, axis);
    var whole, joined := Stack(Flat(chunks), axis), Concatenate(Stacks(chunks, shape, axis), axis);
    assert Stacks(chunks, shape, axis)[0] == Stack(chunks[0], axis);
    assert joined.shape == whole.shape;
    forall ix: seq<nat> | InShape(ix, whole.shape) ensures joined.at(ix) == whole.at(ix) {
      ChunkedElement(chunks, shape, axis, ix);
    }
  }
}
