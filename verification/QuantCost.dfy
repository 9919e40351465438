/** Serialized size of quantised tensors and of a whole plan (omlx/oq.py, _tensor_quantized_bytes
    and _estimate_effective_bpw). */
module QuantCost {
  import opened Common
  import opened QuantNames

  datatype Tensor = Tensor(path: string, shape: seq<nat>)

  function Product(shape: seq<nat>): nat {
    if shape == [] then 1 else shape[0] * Product(shape[1..])
  }

  function BytesPerGroup(mode: Mode): nat {
    match mode
    case Mxfp4 => 1
    case Mxfp8 => 2
    case Affine => 4
  }

  function RowLength(shape: seq<nat>): nat { if shape == [] then 0 else shape[|shape| - 1] }

  /** Rows times groups per row. */
  function Groups(shape: seq<nat>, group: pos): int {
    var last := RowLength(shape);
    var rows := Product(shape) / (if last < 1 then 1 else last);
    rows * (last / group)
  }

  function TensorBytes(shape: seq<nat>, q: Quant): int {
    if |shape| < 2 || RowLength(shape) % q.group != 0 then Product(shape) * 2
    else (Product(shape) * q.bits + 7) / 8 + Groups(shape, q.group) * BytesPerGroup(q.mode)
  }

  /** Size of one tensor in bits. */
  function Cost(shape: seq<nat>, q: Quant): int { 8 * TensorBytes(shape, q) }

  function Chosen(boosts: map<string, Quant>, path: string, base: Quant): Quant {
    if path in boosts then boosts[path] else base
  }

  /** Bits of the whole model under a boost map, recomputed from nothing. */
  function TotalBits(ts: seq<Tensor>, base: Quant, boosts: map<string, Quant>): int {
    if ts == [] then 0
    else Cost(ts[0].shape, Chosen(boosts, ts[0].path, base)) + TotalBits(ts[1..], base, boosts)
  }

  function TotalParams(ts: seq<Tensor>): nat {
    if ts == [] then 0 else Product(ts[0].shape) + TotalParams(ts[1..])
  }

  function Bpw(bits: int, params: nat): real {
    bits as real / (if params < 1 then 1 else params) as real
  }

  method Estimate(ts: seq<Tensor>, base: Quant, boosts: map<string, Quant>) returns (bits: int, params: nat)
    ensures bits == TotalBits(ts, base, boosts)
    ensures params == TotalParams(ts)
  {
    bits, params := 0, 0;
    for i := 0 to |ts|
      invariant bits + TotalBits(ts[i..], base, boosts) == TotalBits(ts, base, boosts)
      invariant params + TotalParams(ts[i..]) == TotalParams(ts)
    {
      hide Cost;
      assert ts[i..][1..] == ts[i + 1..];
      params := params + Product(ts[i].shape);
      bits := bits + Cost(ts[i].shape, Chosen(boosts, ts[i].path, base));
    }
  }

  // ---------- what the size formula means ----------

  lemma {:induction false} ProductSplitsLast(shape: seq<nat>)
    requires shape != []
    ensures Product(shape) == Product(shape[..|shape| - 1]) * shape[|shape| - 1]
  {
    if |shape| == 1 {
      assert shape[1..] == [] && shape[..0] == [];
    } else {
      var inner := shape[1..][..|shape| - 2];
      ProductSplitsLast(shape[1..]);
      assert inner == shape[..|shape| - 1][1..];
      assert Product(shape[..|shape| - 1]) == shape[0] * Product(inner);
      assert Product(shape) == shape[0] * Product(shape[1..]);
      hide Product;
      Associates(shape[0], Product(inner), shape[|shape| - 1]);
    }
  }

  /** The bytes of a tensor hold all its bits, however they are grouped. */
  lemma BytesHoldBits(shape: seq<nat>, q: Quant)
    requires |shape| >= 2 && RowLength(shape) % q.group == 0
    ensures Cost(shape, q) >= Product(shape) * q.bits
  {
    var last := RowLength(shape);
    assert Groups(shape, q.group) >= 0 by {
      assert Product(shape) / (if last < 1 then 1 else last) >= 0 && last / q.group >= 0;
      Scale(0, Product(shape) / (if last < 1 then 1 else last), last / q.group);
    }
    Scale(0, Groups(shape, q.group), BytesPerGroup(q.mode));
    hide Product, Groups;
    var n := Product(shape) * q.bits;
    assert n + 7 == 8 * ((n + 7) / 8) + (n + 7) % 8;
  }

  lemma Associates(a: int, b: int, c: int)
    ensures a * (b * c) == (a * b) * c
  {
  }

  lemma DivideOut(a: nat, b: pos)
    ensures (a * b) / b == a
  {
    var q, r := (a * b) / b, (a * b) % b;
    assert (a - q) * b == r;
    Scale(1, a - q, b);
    Scale(a - q, -1, b);
  }

  /** m groups of 64 or 128 weights fill whole bytes. */
  lemma GroupBytes(m: int, bits: nat, group: pos)
    requires group in {64, 128}
    ensures 8 * ((group * (m * bits) + 7) / 8) == group * (m * bits)
  {
    if group == 64 {} else {}
  }

  /** A matrix whose rows split into groups of 64 (or 128) costs exactly bits + 32 / group per
      weight: the scale and bias of each group are shared by its weights. */
  lemma AffineDensity(shape: seq<nat>, bits: nat, group: pos)
    requires |shape| >= 2 && group in {64, 128} && RowLength(shape) % group == 0
    ensures group * Cost(shape, Affinely(bits, group)) == group * (Product(shape) * bits) + 32 * Product(shape)
  {
    var m := Groups(shape, group);
    GroupCount(shape, group);
    GroupBytes(m, bits, group);
    hide Product, Groups;
    assert Product(shape) * bits == group * (m * bits) by { WeightsByGroup(m, bits, group); }
    assert Cost(shape, Affinely(bits, group)) == group * (m * bits) + 32 * m;
  }

  lemma WeightsByGroup(m: int, bits: int, group: pos)
    ensures (group * m) * bits == group * (m * bits)
  {
  }

  /** The groups hold all the weights. */
  lemma GroupCount(shape: seq<nat>, group: pos)
    requires shape != [] && group in {64, 128} && RowLength(shape) % group == 0
    ensures Product(shape) == group * Groups(shape, group)
  {
    ProductSplitsLast(shape);
    var last, rows := RowLength(shape), Product(shape[..|shape| - 1]);
    hide Product;
    GroupsCover(rows, last, group);
    if last > 0 { DivideOut(rows, last); }
  }

  lemma GroupsCover(rows: nat, last: nat, group: pos)
    requires group in {64, 128} && last % group == 0
    ensures rows * last == group * (rows * (last / group))
  {
    var k := last / group;
    assert last == group * k;
    if group == 64 {
      assert rows * (64 * k) == 64 * (rows * k);
    } else {
      assert rows * (128 * k) == 128 * (rows * k);
    }
  }

  /** So among widths in one group size, wider means strictly dearer for every non-empty tensor. */
  lemma WiderIsDearer(shape: seq<nat>, low: nat, high: nat, group: pos)
    requires |shape| >= 2 && group in {64, 128} && RowLength(shape) % group == 0 && low < high
    ensures Cost(shape, Affinely(low, group)) < Cost(shape, Affinely(high, group)) <==> Product(shape) > 0
  {
    AffineDensity(shape, low, group);
    AffineDensity(shape, high, group);
    hide Cost, Product;
    var n := Product(shape);
    Compare(n, n * low, n * high, Cost(shape, Affinely(low, group)), Cost(shape, Affinely(high, group)), group);
    OneStep(n, low, high);
  }

  lemma OneStep(n: nat, low: nat, high: nat)
    requires low < high
    ensures n <= n * high - n * low && (n == 0 ==> n * high == n * low == 0)
  {
    Scale(1, high - low, n);
    assert n * high - n * low == (high - low) * n;
  }

  lemma Compare(n: int, low: int, high: int, cheap: int, dear: int, group: pos)
    requires group in {64, 128}
    requires group * cheap == group * low + 32 * n && group * dear == group * high + 32 * n
    ensures dear - cheap == high - low
  {
    if group == 64 {} else {}
  }
}
