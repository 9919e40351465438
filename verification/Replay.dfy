/** Sanitize plans (omlx/oq.py, _TrackedTensor, _discover_sanitize_plan and _DiscoveredPlan): a dry
    run on shapes records one operation per output, which is later replayed tensor by tensor. */
module Replay {
  import opened Common
  import opened Tensors

  type Store = map<string, Tensor>

  /** One operation on raw inputs, as a sanitizer writes it. Axes may be negative. Cut is a step-1
      slice along one axis, with its bounds already resolved, and all other axes full. */
  datatype Op =
    | Keep(key: string)
    | StackOf(keys: seq<string>, axis: int)
    | JoinOf(keys: seq<string>, axis: int)
    | TransposeOf(key: string, axes: seq<int>)
    | MoveOf(key: string, src: int, dst: int)
    | PartOf(key: string, parts: nat, which: nat, axis: int)
    | Cut(key: string, along: nat, start: nat, stop: nat)
    | AddTo(key: string, amount: real)

  function Norm(axis: int, rank: nat): int { if axis < 0 then axis + rank else axis }

  predicate Known(keys: seq<string>, store: Store) { forall i :: 0 <= i < |keys| ==> keys[i] in store }

  function Load(keys: seq<string>, store: Store): (ts: seq<Tensor>)
    requires Known(keys, store)
    ensures |ts| == |keys| && forall i :: 0 <= i < |keys| ==> ts[i] == store[keys[i]]
  {
    seq(|keys|, i requires 0 <= i < |keys| && Known(keys, store) => store[keys[i]])
  }

  function NormAll(axes: seq<int>, rank: nat): seq<int> {
    seq(|axes|, i requires 0 <= i < |axes| => Norm(axes[i], rank))
  }

  function AsNats(xs: seq<int>): seq<nat>
    requires forall i :: 0 <= i < |xs| ==> xs[i] >= 0
  {
    seq(|xs|, i requires 0 <= i < |xs| && xs[i] >= 0 => xs[i])
  }

  /** The array library accepts the operation. */
  predicate Legal(op: Op, store: Store) {
    match op
    case Keep(k) => k in store
    case StackOf(ks, axis) =>
      && Known(ks, store) && Uniform(Load(ks, store))
      && 0 <= Norm(axis, |Load(ks, store)[0].shape| + 1) <= |Load(ks, store)[0].shape|
    case JoinOf(ks, axis) =>
      && Known(ks, store) && ks != []
      && 0 <= Norm(axis, |Load(ks, store)[0].shape|) && Joinable(Load(ks, store), Norm(axis, |Load(ks, store)[0].shape|))
    case TransposeOf(k, axes) =>
      && k in store
      && (forall i :: 0 <= i < |axes| ==> NormAll(axes, |store[k].shape|)[i] >= 0)
      && Permutation(AsNats(NormAll(axes, |store[k].shape|)), |store[k].shape|)
    case MoveOf(k, src, dst) =>
      k in store && 0 <= Norm(src, |store[k].shape|) < |store[k].shape| && 0 <= Norm(dst, |store[k].shape|) < |store[k].shape|
    case PartOf(k, parts, which, axis) =>
      && k in store && which < parts && 0 <= Norm(axis, |store[k].shape|) < |store[k].shape|
      && store[k].shape[Norm(axis, |store[k].shape|)] % parts == 0
    case Cut(k, axis, start, stop) =>
      k in store && axis < |store[k].shape| && start <= stop <= store[k].shape[axis]
    case AddTo(k, _) => k in store
  }

  /** What eager execution computes. */
  function Eager(op: Op, store: Store): Tensor
    requires Legal(op, store)
  {
    match op
    case Keep(k) => store[k]
    case StackOf(ks, axis) => Stack(Load(ks, store), Norm(axis, |Load(ks, store)[0].shape| + 1))
    case JoinOf(ks, axis) => Concatenate(Load(ks, store), Norm(axis, |Load(ks, store)[0].shape|))
    case TransposeOf(k, axes) => Transpose(store[k], AsNats(NormAll(axes, |store[k].shape|)))
    case MoveOf(k, src, dst) =>
      MoveAxis(store[k], Norm(src, |store[k].shape|), Norm(dst, |store[k].shape|))
    case PartOf(k, parts, which, axis) => Part(store[k], Norm(axis, |store[k].shape|), which, parts)
    case Cut(k, axis, start, stop) => Slice(store[k], axis, start, stop - start)
    case AddTo(k, amount) => Plus(store[k], amount)
  }

  /** A negative axis counts from the end: the operation is the one on the axis it stands for. */
  lemma AxesFromTheEnd(keys: seq<string>, key: string, store: Store, axis: nat, other: nat, parts: nat, which: nat)
    ensures Known(keys, store) && Uniform(Load(keys, store)) && axis <= |Load(keys, store)[0].shape| ==>
      var back := axis - |Load(keys, store)[0].shape| - 1;
      && Legal(StackOf(keys, axis), store) && Legal(StackOf(keys, back), store)
      && Eager(StackOf(keys, axis), store) == Eager(StackOf(keys, back), store) == Stack(Load(keys, store), axis)
    ensures Known(keys, store) && keys != [] && Joinable(Load(keys, store), axis) ==>
      var back := axis - |Load(keys, store)[0].shape|;
      && Legal(JoinOf(keys, axis), store) && Legal(JoinOf(keys, back), store)
      && Eager(JoinOf(keys, axis), store) == Eager(JoinOf(keys, back), store) == Concatenate(Load(keys, store), axis)
    ensures key in store && axis < |store[key].shape| && other < |store[key].shape| ==>
      var rank := |store[key].shape|;
      && (forall a, b :: a in [axis, axis - rank] && b in [other, other - rank] ==>
            Legal(MoveOf(key, a, b), store) && Eager(MoveOf(key, a, b), store) == MoveAxis(store[key], axis, other))
      && (which < parts && store[key].shape[axis] % parts == 0 ==>
            forall a :: a in [axis, axis - rank] ==>
              Legal(PartOf(key, parts, which, a), store)
              && Eager(PartOf(key, parts, which, a), store) == Part(store[key], axis, which, parts))
  {
  }

  // ---------- the dry run ----------

  datatype Transform =
    | Passthrough
    | Stacked
    | Concatenated
    | Transposed(axes: seq<int>)
    | MovedAxis(src: int, dst: int)
    | SplitPart(which: nat, parts: nat)
    | Added
    | Sliced

  datatype Info = Info(sources: seq<string>, transform: Transform, shape: seq<nat>, axis: int)

  /** A Python slice bound on a list of this length. */
  function Bound(i: int, n: nat): nat {
    var j := if i < 0 then i + n else i;
    if j < 0 then 0 else if j > n then n else j
  }

  /** base[:axis] + [n] + base[axis:], as the dry run writes it. */
  function TrackedStack(base: seq<nat>, axis: int, n: nat): seq<nat> {
    base[..Bound(axis, |base|)] + [n] + base[Bound(axis, |base|)..]
  }

  /** tuple(shape[d] for d in dims). */
  function Selected(shape: seq<nat>, dims: seq<nat>): seq<nat>
    requires forall i :: 0 <= i < |dims| ==> dims[i] < |shape|
  {
    if dims == [] then [] else [shape[dims[0]]] + Selected(shape, dims[1..])
  }

  lemma {:induction false} SelectedAt(shape: seq<nat>, dims: seq<nat>)
    requires forall i :: 0 <= i < |dims| ==> dims[i] < |shape|
    ensures |Selected(shape, dims)| == |dims|
    ensures forall i :: 0 <= i < |dims| ==> Selected(shape, dims)[i] == shape[dims[i]]
  {
    if dims != [] { SelectedAt(shape, dims[1..]); }
  }

  /** The half of an even dimension that this slice selects, if it is one. */
  function HalfOf(dim: nat, start: nat, stop: nat): Option<nat> {
    if dim == 0 || dim % 2 != 0 || stop - start != dim / 2 then None
    else if start == 0 then Some(0)
    else if start == dim / 2 then Some(1)
    else None
  }

  /** What the dry run records for an operation; it reads nothing but shapes. */
  function Track(op: Op, store: Store): Info
    requires Legal(op, store)
  {
    match op
    case Keep(k) => Info([k], Passthrough, store[k].shape, 0)
    case StackOf(ks, axis) => Info(ks, Stacked, TrackedStack(Load(ks, store)[0].shape, axis, |ks|), axis)
    case JoinOf(ks, axis) =>
      var base := Load(ks, store)[0].shape;
      Info(ks, Concatenated, base[Norm(axis, |base|) := Extent(Load(ks, store), Norm(axis, |base|))], axis)
    case TransposeOf(k, axes) =>
      var to := NormAll(axes, |store[k].shape|);
      Info([k], Transposed(to), Selected(store[k].shape, AsNats(to)), 0)
    case MoveOf(k, src, dst) =>
      var rank := |store[k].shape|;
      MovedIsPermutation(rank, Norm(src, rank), Norm(dst, rank));
      Info([k], MovedAxis(Norm(src, rank), Norm(dst, rank)),
           Selected(store[k].shape, Moved(rank, Norm(src, rank), Norm(dst, rank))), 0)
    case PartOf(k, parts, which, axis) =>
      var a := Norm(axis, |store[k].shape|);
      Info([k], SplitPart(which, parts), store[k].shape[a := store[k].shape[a] / parts], axis)
    case Cut(k, axis, start, stop) =>
      var half := HalfOf(store[k].shape[axis], start, stop);
      Info([k], if half.Some? then SplitPart(half.value, 2) else Sliced, store[k].shape[axis := stop - start], axis)
    case AddTo(k, _) => Info([k], Added, store[k].shape, 0)
  }

  /** Discovery gives up on anything it could not replay. */
  predicate Replayable(t: Transform) { !t.Sliced? }

  // ---------- the replay ----------

  const CHUNK: nat := 16

  /** The library's default when the recorded operation does not apply to the loaded sources. */
  datatype Replayed = Got(tensor: Tensor) | Missing | Failed

  /** Chunked stacking: partial stacks of at most 16 sources, joined on the same axis. */
  method StackInChunks(keys: seq<string>, axis: int, store: Store) returns (t: Tensor, ghost chunks: seq<seq<Tensor>>)
    requires Legal(StackOf(keys, axis), store)
    ensures Same(t, Eager(StackOf(keys, axis), store))
    ensures Flat(chunks) == Load(keys, store) && BySixteen(chunks)
  {
    var ts := Load(keys, store);
    t, chunks := StackPieces(ts, Norm(axis, |ts[0].shape| + 1));
  }

  /** Sixteen at a time, and what is left. */
  ghost predicate BySixteen(chunks: seq<seq<Tensor>>) {
    && (forall i :: 0 <= i < |chunks| ==> 0 < |chunks[i]| <= 16)
    && forall i :: 0 <= i < |chunks| - 1 ==> |chunks[i]| == 16
  }

  method StackPieces(ts: seq<Tensor>, axis: nat) returns (t: Tensor, ghost chunks: seq<seq<Tensor>>)
    requires Uniform(ts) && axis <= |ts[0].shape|
    ensures Same(t, Stack(ts, axis))
    ensures Flat(chunks) == ts && BySixteen(chunks)
  {
    var partials: seq<Tensor> := [];
    chunks := [];
    var base := 0;
    while base < |ts|
      invariant 0 <= base <= |ts| && (base > 0 ==> chunks != [])
      invariant StackedUpTo(ts, axis, base, chunks, partials)
      invariant BySixteen(chunks) && (base < |ts| ==> forall i :: 0 <= i < |chunks| ==> |chunks[i]| == 16)
    {
      var end := if base + CHUNK < |ts| then base + CHUNK else |ts|;
      PieceStacked(ts, axis, base, end, chunks, partials);
      SixteenMore(chunks, ts[base..end], end < |ts|);
      hide *;
      partials := partials + [Stack(ts[base..end], axis)];
      chunks := chunks + [ts[base..end]];
      base := end;
    }
    Reassembled(ts, axis, chunks, partials);
    assert ts[..|ts|] == ts;
    if |partials| == 1 { return partials[0], chunks; }
    t := Concatenate(partials, axis);
  }

  lemma SixteenMore(chunks: seq<seq<Tensor>>, piece: seq<Tensor>, more: bool)
    requires (forall i :: 0 <= i < |chunks| ==> |chunks[i]| == 16) && 0 < |piece| <= 16 && (more ==> |piece| == 16)
    ensures BySixteen(chunks + [piece]) && (more ==> forall i :: 0 <= i < |chunks + [piece]| ==> |(chunks + [piece])[i]| == 16)
  {
  }

  /** The chunks cover the first n tensors, and each has been stacked. */
  ghost predicate StackedUpTo(ts: seq<Tensor>, axis: nat, n: nat, chunks: seq<seq<Tensor>>, partials: seq<Tensor>)
    requires Uniform(ts) && axis <= |ts[0].shape| && n <= |ts|
  {
    && Chunked(chunks, ts[0].shape) && Flat(chunks) == ts[..n]
    && partials == Stacks(chunks, ts[0].shape, axis)
  }

  lemma PieceStacked(ts: seq<Tensor>, axis: nat, base: nat, end: nat, chunks: seq<seq<Tensor>>, partials: seq<Tensor>)
    requires Uniform(ts) && axis <= |ts[0].shape| && base < end <= |ts| && StackedUpTo(ts, axis, base, chunks, partials)
    ensures Uniform(ts[base..end]) && axis <= |ts[base..end][0].shape|
    ensures StackedUpTo(ts, axis, end, chunks + [ts[base..end]], partials + [Stack(ts[base..end], axis)])
  {
    PieceOf(ts, base, end);
    var piece := ts[base..end];
    hide Flat, Stacks, Stack, Uniform, Chunked;
    AddChunk(chunks, piece, ts[0].shape, axis);
    FlatAppend(chunks, piece);
    assert ts[..end] == ts[..base] + piece;
  }

  lemma PieceOf(ts: seq<Tensor>, from: nat, to: nat)
    requires Uniform(ts) && from < to <= |ts|
    ensures Uniform(ts[from..to]) && ts[from..to][0].shape == ts[0].shape && Chunked([ts[from..to]], ts[0].shape)
  {
    assert forall j :: 0 <= j < to - from ==> ts[from..to][j] == ts[from + j];
  }

  lemma Reassembled(ts: seq<Tensor>, axis: nat, chunks: seq<seq<Tensor>>, partials: seq<Tensor>)
    requires Uniform(ts) && axis <= |ts[0].shape| && chunks != [] && StackedUpTo(ts, axis, |ts|, chunks, partials)
    ensures Joinable(partials, axis)
    ensures Same(if |partials| == 1 then partials[0] else Concatenate(partials, axis), Stack(ts, axis))
  {
    assert Flat(chunks) == ts by { assert ts[..|ts|] == ts; }
    ChunkedStack(chunks, ts[0].shape, axis);
    if |chunks| == 1 {
      FlatFront(chunks);
      assert Flat(chunks) == chunks[0];
    }
  }

  lemma {:induction false} AddChunk(chunks: seq<seq<Tensor>>, piece: seq<Tensor>, shape: seq<nat>, axis: nat)
    requires Chunked(chunks, shape) && Chunked([piece], shape) && Uniform(piece) && piece[0].shape == shape && axis <= |shape|
    ensures Chunked(chunks + [piece], shape)
    ensures Stacks(chunks + [piece], shape, axis) == Stacks(chunks, shape, axis) + [Stack(piece, axis)]
  {
    if chunks == [] {
      assert Stacks([piece], shape, axis) == [Stack(piece, axis)];
    } else {
      AddChunk(chunks[1..], piece, shape, axis);
      assert (chunks + [piece])[1..] == chunks[1..] + [piece];
    }
  }

  /** The replay of one record. Whatever operation it was recorded from, the result is what eager
      execution computes; for an added constant, exactly when the constant is 1 (or there is
      nothing to add it to), because that is what is replayed. */
  method Materialize(info: Info, store: Store, ghost op: Op) returns (t: Tensor)
    requires Legal(op, store) && info == Track(op, store) && Replayable(info.transform)
    ensures !op.AddTo? ==> Same(t, Eager(op, store))
    ensures op.AddTo? ==> (Same(t, Eager(op, store)) <==> op.amount == 1.0 || 0 in store[op.key].shape)
  {
    match info.transform {
      case Passthrough => t := store[info.sources[0]];
      case Stacked =>
        ghost var chunks;
        t, chunks := StackInChunks(info.sources, info.axis, store);
      case Concatenated =>
        var parts := Load(info.sources, store);
        t := Concatenate(parts, Norm(info.axis, |parts[0].shape|));
      case Added =>
        t := Plus(store[info.sources[0]], 1.0);
        AddsOne(store[info.sources[0]], op.amount);
      case Transposed(axes) => t := Transpose(store[info.sources[0]], AsNats(axes));
      case MovedAxis(src, dst) => t := MoveAxis(store[info.sources[0]], src, dst);
      case SplitPart(which, parts) =>
        t := Part(store[info.sources[0]], Norm(info.axis, |store[info.sources[0]].shape|), which, parts);
    }
  }

  lemma AddsOne(t: Tensor, amount: real)
    ensures Same(Plus(t, 1.0), Plus(t, amount)) <==> amount == 1.0 || 0 in t.shape
  {
    var zeros := seq<nat>(|t.shape|, i => 0);
    if 0 in t.shape {
      var k :| 0 <= k < |t.shape| && t.shape[k] == 0;
      forall ix: seq<nat> ensures !InShape(ix, t.shape) {
        if |ix| == |t.shape| { assert !(ix[k] < t.shape[k]); }
      }
    } else {
      assert InShape(zeros, t.shape);
      assert Plus(t, 1.0).at(zeros) == t.at(zeros) + 1.0 && Plus(t, amount).at(zeros) == t.at(zeros) + amount;
    }
  }

  /** The recorded shape is the real one, except for a stack on a negative axis: there the new
      dimension is recorded one place early, which is right only if its neighbour has that size. */
  lemma TrackedShape(op: Op, store: Store)
    requires Legal(op, store)
    ensures !(op.StackOf? && op.axis < 0) ==> Track(op, store).shape == Eager(op, store).shape
    ensures op.StackOf? && op.axis < 0 ==>
      var base := Load(op.keys, store)[0].shape;
      Track(op, store).shape == Eager(op, store).shape <==> |base| + op.axis < 0 || base[|base| + op.axis] == |op.keys|
  {
    if op.TransposeOf? {
      SelectedAt(store[op.key].shape, AsNats(NormAll(op.axes, |store[op.key].shape|)));
    } else if op.MoveOf? {
      var shape := store[op.key].shape;
      var src, dst := Norm(op.src, |shape|), Norm(op.dst, |shape|);
      MovingTransposes(store[op.key], src, dst);
      SelectedAt(shape, Moved(|shape|, src, dst));
    }
    if op.StackOf? && op.axis < 0 {
      var base, n := Load(op.keys, store)[0].shape, |op.keys|;
      var p := |base| + op.axis;
      if p >= 0 {
        assert Inserted(base, p + 1, n)[p] == base[p] && Inserted(base, p, n)[p] == n;
        if base[p] == n { assert Inserted(base, p, n) == Inserted(base, p + 1, n); }
      }
    }
  }

  // ---------- whole plans ----------

  /** The dry run of a sanitizer with these outputs; None when it must fall back to eager mode. */
  function Discover(program: map<string, Op>, store: Store): Option<map<string, Info>>
    requires forall k <- program :: Legal(program[k], store)
  {
    var plan := map k | k in program :: Track(program[k], store);
    if forall k <- plan :: Replayable(plan[k].transform) then Some(plan) else None
  }

  class DiscoveredPlan {
    const store: Store
    var plan: map<string, Info>
    /** The sanitizer the plan was discovered from. */
    ghost const program: map<string, Op>

    constructor (plan: map<string, Info>, store: Store, ghost program: map<string, Op>)
      requires forall k <- program :: Legal(program[k], store)
      requires Discover(program, store) == Some(plan)
      ensures Valid() && this.plan == plan && this.store == store && this.program == program
    {
      this.plan, this.store, this.program := plan, store, program;
    }

    ghost predicate Valid()
      reads this
    {
      forall k <- plan :: k in program && Legal(program[k], store)
                          && plan[k] == Track(program[k], store) && Replayable(plan[k].transform)
    }

    /** pop: each output can be taken once. */
    method Pop(key: string) returns (r: Replayed)
      requires Valid()
      modifies this`plan
      ensures Valid() && plan == old(plan) - {key}
      ensures r.Missing? <==> key !in old(plan)
      ensures key in old(plan) ==> r.Got?
      ensures key in old(plan) && (program[key].AddTo? ==> program[key].amount == 1.0) ==>
        Same(r.tensor, Eager(program[key], store))
    {
      if key !in plan { return Missing; }
      var info := plan[key];
      plan := plan - {key};
      var t := Materialize(info, store, program[key]);
      return Got(t);
    }
  }

  /** Popping every output, in any order, rebuilds the sanitizer's whole result. */
  method ReplayAll(program: map<string, Op>, store: Store) returns (out: Option<map<string, Tensor>>)
    requires forall k <- program :: Legal(program[k], store) && (program[k].AddTo? ==> program[k].amount == 1.0)
    ensures out.None? <==> exists k <- program :: program[k].Cut? && !CutsHalf(program[k], store)
    ensures out.Some? ==> out.value.Keys == program.Keys
    ensures out.Some? ==> forall k <- program :: Same(out.value[k], Eager(program[k], store))
  {
    hide Legal, Eager, Same;
    var discovered := Discover(program, store);
    OnlyCutsAreSliced(program, store);
    if discovered.None? { return None; }
    hide Track;
    assert forall k <- program :: Replayable(discovered.value[k].transform);
    var plan := new DiscoveredPlan(discovered.value, store, program);
    var result := PopAll(plan);
    out := Some(result);
  }

  /** The slice is the first or the second half of a dimension that has any. */
  predicate CutsHalf(op: Op, store: Store)
    requires op.Cut? && Legal(op, store)
  {
    var dim := store[op.key].shape[op.along];
    dim > 0 && 2 * (op.stop - op.start) == dim && (op.start == 0 || op.stop == dim)
  }

  lemma OnlyHalvesAreKept(op: Op, store: Store)
    requires Legal(op, store)
    ensures Replayable(Track(op, store).transform) <==> (op.Cut? ==> CutsHalf(op, store))
  {
  }

  lemma OnlyCutsAreSliced(program: map<string, Op>, store: Store)
    requires forall k <- program :: Legal(program[k], store)
    ensures Discover(program, store).None? <==> exists k <- program :: program[k].Cut? && !CutsHalf(program[k], store)
    ensures Discover(program, store).Some? ==>
      forall k <- program :: Discover(program, store).value[k] == Track(program[k], store)
                             && Replayable(Discover(program, store).value[k].transform)
    ensures Discover(program, store).Some? ==> Discover(program, store).value.Keys == program.Keys
  {
    hide Legal;
    var plan := map k | k in program :: Track(program[k], store);
    assert forall k <- program :: plan[k] == Track(program[k], store);
    forall k | k in program
      ensures Replayable(Track(program[k], store).transform) <==> (program[k].Cut? ==> CutsHalf(program[k], store))
    {
      OnlyHalvesAreKept(program[k], store);
    }
    hide Track, Replayable, CutsHalf;
    if k :| k in program && program[k].Cut? && !CutsHalf(program[k], store) {
      assert k in plan && !Replayable(plan[k].transform);
    }
  }

  method PopAll(plan: DiscoveredPlan) returns (result: map<string, Tensor>)
    requires plan.Valid() && plan.plan.Keys == plan.program.Keys
    requires forall k <- plan.program :: Legal(plan.program[k], plan.store)
    requires forall k <- plan.program :: plan.program[k].AddTo? ==> plan.program[k].amount == 1.0
    modifies plan
    ensures result.Keys == plan.program.Keys
    ensures forall k <- plan.program :: Same(result[k], Eager(plan.program[k], plan.store))
  {
    hide Same, Eager, Legal, Track, Replayable;
    result := map[];
    var todo := plan.plan.Keys;
    while todo != {}
      invariant plan.Valid() && plan.plan.Keys == todo
      invariant todo + result.Keys == plan.program.Keys && todo !! result.Keys
      invariant forall k <- result :: Same(result[k], Eager(plan.program[k], plan.store))
    {
      var key :| key in todo;
      todo := todo - {key};
      var r := plan.Pop(key);
      result := result[key := r.tensor];
    }
  }
}
