/** Loading and quantising a tensor row by row (omlx/oq.py, _LazyTensor._load_rows, _row_chunks and
    _quantize_chunked) refine doing it at once. */
module ChunkedRows {
  import opened Common

  const MAX_ELEMENTS: nat := 0x4000_0000

  function AtLeastOne(n: int): (r: int)
    ensures r >= 1 && (n >= 1 ==> r == n)
  {
    if n < 1 then 1 else n
  }

  // ---------- rows ----------

  /** A flat list cut into rows of a length; an incomplete last row is dropped. */
  function Rows<V>(xs: seq<V>, width: nat): seq<seq<V>>
    requires width > 0
  {
    if |xs| < width then [] else [xs[..width]] + Rows(xs[width..], width)
  }

  lemma {:induction false} RowsSplit<V>(a: seq<V>, b: seq<V>, width: nat, n: nat)
    requires width > 0 && |a| == n * width
    ensures Rows(a + b, width) == Rows(a, width) + Rows(b, width)
    decreases n
  {
    if n == 0 {
      assert a + b == b;
    } else {
      assert |a| >= width && |a[width..]| == (n - 1) * width by { assert n * width == (n - 1) * width + width; }
      assert (a + b)[..width] == a[..width] && (a + b)[width..] == a[width..] + b;
      RowsSplit(a[width..], b, width, n - 1);
    }
  }

  /** Elements of a byte string, each from its own group of bytes. */
  function Decode<V>(bytes: seq<int>, size: nat, decode: seq<int> -> V): seq<V>
    requires size > 0
  {
    if |bytes| < size then [] else [decode(bytes[..size])] + Decode(bytes[size..], size, decode)
  }

  lemma {:induction false} DecodedLength<V>(bytes: seq<int>, size: nat, decode: seq<int> -> V, n: nat)
    requires size > 0 && |bytes| == n * size
    ensures |Decode(bytes, size, decode)| == n
  {
    if n > 0 {
      assert n * size == (n - 1) * size + size;
      DecodedLength(bytes[size..], size, decode, n - 1);
    }
  }

  /** One stored tensor: a byte range of a file, read as rows of width elements of size bytes. */
  datatype Stored<!V> = Stored(file: seq<int>, start: nat, rows: nat, width: nat, size: nat, decode: seq<int> -> V)

  predicate Fits<V>(t: Stored<V>) {
    t.width > 0 && t.size > 0 && t.start + t.rows * (t.width * t.size) <= |t.file|
  }

  function BytesPerRow<V>(t: Stored<V>): nat { t.width * t.size }

  /** The bytes of rows r0 to r1. */
  function Raw<V>(t: Stored<V>, r0: nat, r1: nat): (bytes: seq<int>)
    requires Fits(t) && r0 <= r1 <= t.rows
    ensures |bytes| == ((r1 - r0) * t.width) * t.size
  {
    RangeFits(t, r0, r1);
    ElementCount(r1 - r0, t.width, t.size);
    t.file[t.start + r0 * BytesPerRow(t)..t.start + r1 * BytesPerRow(t)]
  }

  /** Rows r0 to r1 decoded in one go. */
  function OneShot<V>(t: Stored<V>, r0: nat, r1: nat): seq<seq<V>>
    requires Fits(t) && r0 <= r1 <= t.rows
  {
    Rows(Decode(Raw(t, r0, r1), t.size, t.decode), t.width)
  }

  lemma RangeFits<V>(t: Stored<V>, r0: nat, r1: nat)
    requires Fits(t) && r0 <= r1 <= t.rows
    ensures 0 <= r0 * BytesPerRow(t) <= r1 * BytesPerRow(t) <= t.rows * BytesPerRow(t)
    ensures r1 * BytesPerRow(t) - r0 * BytesPerRow(t) == (r1 - r0) * BytesPerRow(t)
  {
    Scale(r0, r1, BytesPerRow(t));
    Scale(r1, t.rows, BytesPerRow(t));
    Scale(0, r0, BytesPerRow(t));
  }

  /** This many rows fit one array: in bytes, and in the array library's element count. */
  predicate Within(n: nat, bytesPerRow: nat, width: nat, chunkBytes: nat) { n * bytesPerRow <= chunkBytes && n * width <= MAX_ELEMENTS }

  /** Pieces that fit, or are single rows, and of which none but the last could take another row. */
  ghost predicate Snug<A>(parts: seq<seq<A>>, bytesPerRow: nat, width: nat, chunkBytes: nat) {
    && (forall i :: 0 <= i < |parts| ==> |parts[i]| == 1 || Within(|parts[i]|, bytesPerRow, width, chunkBytes))
    && forall i :: 0 <= i < |parts| - 1 ==> !Within(|parts[i]| + 1, bytesPerRow, width, chunkBytes)
  }

  /** _load_rows, for any byte budget per array: the rows decoded at once, built from arrays that fit. */
  method LoadRows<V>(t: Stored<V>, r0: nat, r1: nat, chunkBytes: nat)
    returns (rows: seq<seq<V>>, ghost parts: seq<seq<seq<V>>>)
    requires Fits(t) && r1 <= t.rows
    ensures rows == if r0 < r1 then OneShot(t, r0, r1) else []
    ensures rows == Flat(parts) && Snug(parts, BytesPerRow(t), t.width, chunkBytes)
  {
    if r1 <= r0 { return [], []; }
    var raw := Raw(t, r0, r1);
    var maxRows := RowLimit(chunkBytes, BytesPerRow(t), t.width);
    BytesPerRowPositive(t);
    RowLimitIsTight(chunkBytes, BytesPerRow(t), t.width);
    var width, size, decode := t.width, t.size, t.decode;
    hide Raw, Fits, BytesPerRow, Rows, Decode, Within;
    var arr := Decode(raw, size, decode);
    DecodedRows(raw, size, decode, r1 - r0, width);
    RowCount(arr, width, r1 - r0);
    if r1 - r0 <= maxRows {
      rows, parts := Rows(arr, width), [Rows(arr, width)];
      assert Flat(parts) == Flat([]) + rows;
      FewerFit(r1 - r0, maxRows, BytesPerRow(t), width, chunkBytes);
      return;
    }
    var pieces := InPieces(arr, width, maxRows, r1 - r0);
    PiecesAreSnug(pieces, maxRows, BytesPerRow(t), width, chunkBytes);
    rows, parts := Flat(pieces), pieces;
  }

  lemma BytesPerRowPositive<V>(t: Stored<V>)
    requires Fits(t)
    ensures BytesPerRow(t) >= 1
  {
  }

  lemma {:induction false} RowCount<V>(xs: seq<V>, width: nat, n: nat)
    requires width > 0 && |xs| == n * width
    ensures |Rows(xs, width)| == n
    decreases n
  {
    if n > 0 {
      assert n * width == (n - 1) * width + width;
      RowCount(xs[width..], width, n - 1);
    }
  }

  lemma FewerFit(n: nat, m: nat, bytesPerRow: nat, width: nat, chunkBytes: nat)
    requires n <= m && (m == 1 || Within(m, bytesPerRow, width, chunkBytes))
    ensures n <= 1 || Within(n, bytesPerRow, width, chunkBytes)
  {
    Scale(n, m, bytesPerRow);
    Scale(n, m, width);
  }

  lemma QuotientFits(n: nat, d: nat)
    requires d >= 1
    ensures (n / d) * d <= n < (n / d + 1) * d
  {
    assert n == d * (n / d) + n % d;
  }

  /** The limit is what fits in both respects, or one row, and nothing more fits. */
  lemma RowLimitIsTight(chunkBytes: nat, bytesPerRow: nat, width: nat)
    requires bytesPerRow >= 1 && width >= 1
    ensures var n := RowLimit(chunkBytes, bytesPerRow, width);
      && (n == 1 || Within(n, bytesPerRow, width, chunkBytes)) && !Within(n + 1, bytesPerRow, width, chunkBytes)
  {
    var n, a, b := RowLimit(chunkBytes, bytesPerRow, width), chunkBytes / bytesPerRow, MAX_ELEMENTS / width;
    QuotientFits(chunkBytes, bytesPerRow);
    QuotientFits(MAX_ELEMENTS, width);
    Scale(n, a, bytesPerRow);
    Scale(n, b, width);
    Scale(a + 1, n + 1, bytesPerRow);
    Scale(b + 1, n + 1, width);
  }

  lemma PiecesAreSnug<A>(parts: seq<seq<A>>, maxRows: nat, bytesPerRow: nat, width: nat, chunkBytes: nat)
    requires maxRows == 1 || Within(maxRows, bytesPerRow, width, chunkBytes)
    requires !Within(maxRows + 1, bytesPerRow, width, chunkBytes)
    requires Pieces(parts, maxRows)
    ensures Snug(parts, bytesPerRow, width, chunkBytes)
  {
    forall i | 0 <= i < |parts| ensures |parts[i]| == 1 || Within(|parts[i]|, bytesPerRow, width, chunkBytes) {
      FewerFit(|parts[i]|, maxRows, bytesPerRow, width, chunkBytes);
    }
  }

  lemma DecodedRows<V>(raw: seq<int>, size: nat, decode: seq<int> -> V, n: nat, width: nat)
    requires size > 0 && |raw| == (n * width) * size
    ensures |Decode(raw, size, decode)| == n * width
  {
    DecodedLength(raw, size, decode, n * width);
  }

  /** Rows per piece: bounded by bytes and by the array library's element count. */
  function RowLimit(chunkBytes: nat, bytesPerRow: nat, width: nat): (n: nat)
    ensures n >= 1
  {
    Min(AtLeastOne(chunkBytes / AtLeastOne(bytesPerRow)), AtLeastOne(MAX_ELEMENTS / AtLeastOne(width)))
  }

  lemma ElementCount(n: nat, width: nat, size: nat)
    ensures n * (width * size) == (n * width) * size && 0 <= n * width
  {
  }

  /** Pieces of this many rows; the last may have fewer, but not none. */
  ghost predicate Pieces<A>(parts: seq<seq<A>>, maxRows: nat) {
    && (forall i :: 0 <= i < |parts| ==> 0 < |parts[i]| <= maxRows)
    && forall i :: 0 <= i < |parts| - 1 ==> |parts[i]| == maxRows
  }

  /** The pieces so far are the rows of the first done * width elements. */
  ghost predicate TakenUpTo<V>(arr: seq<V>, width: nat, maxRows: nat, n: nat, done: nat, parts: seq<seq<seq<V>>>)
    requires width > 0
  {
    && done <= n && 0 <= done * width <= |arr| == n * width && Flat(parts) == Rows(arr[..done * width], width)
    && Pieces(parts, maxRows) && (done < n ==> forall i :: 0 <= i < |parts| ==> |parts[i]| == maxRows)
  }

  lemma TakeOne<V>(arr: seq<V>, width: nat, maxRows: nat, n: nat, done: nat, parts: seq<seq<seq<V>>>, next: nat)
    requires width > 0 && maxRows > 0 && TakenUpTo(arr, width, maxRows, n, done, parts) && done < n && next == Min(done + maxRows, n)
    ensures 0 <= done * width < next * width <= |arr|
    ensures TakenUpTo(arr, width, maxRows, n, next, parts + [Rows(arr[done * width..next * width], width)])
  {
    Scale(done + 1, next, width);
    Scale(next, n, width);
    var piece := arr[done * width..next * width];
    assert arr[..next * width] == arr[..done * width] + piece;
    RowsSplit(arr[..done * width], piece, width, done);
    RowCount(piece, width, next - done);
    FlatAppend(parts, Rows(piece, width));
    hide Rows, Flat;
  }

  method InPieces<V>(arr: seq<V>, width: nat, maxRows: nat, n: nat) returns (parts: seq<seq<seq<V>>>)
    requires width > 0 && maxRows > 0 && |arr| == n * width
    ensures Flat(parts) == Rows(arr, width) && Pieces(parts, maxRows)
  {
    parts := [];
    ghost var done := 0;
    var s := 0;
    assert TakenUpTo(arr, width, maxRows, n, done, parts);
    while s < |arr|
      invariant s == done * width && TakenUpTo(arr, width, maxRows, n, done, parts)
      decreases |arr| - s
    {
      hide Rows, Flat, Pieces;
      if done >= n { Scale(n, done, width); }
      ghost var next := Min(done + maxRows, n);
      TakeOne(arr, width, maxRows, n, done, parts, next);
      var end := if s + maxRows * width < |arr| then s + maxRows * width else |arr|;
      assert end == next * width by { PieceEnd(done, maxRows, n, width); }
      hide TakenUpTo;
      parts := parts + [Rows(arr[s..end], width)];
      done, s := next, end;
    }
    if done < n { Scale(done + 1, n, width); }
    assert arr[..s] == arr;
  }

  lemma PieceEnd(done: nat, maxRows: nat, n: nat, width: nat)
    requires width > 0 && done <= n
    ensures (if done * width + maxRows * width < n * width then done * width + maxRows * width else n * width)
         == Min(done + maxRows, n) * width
  {
    assert done * width + maxRows * width == (done + maxRows) * width;
    if done + maxRows < n {
      Scale(done + maxRows + 1, n, width);
      assert (done + maxRows + 1) * width == (done + maxRows) * width + width;
    } else {
      Scale(n, done + maxRows, width);
    }
  }

  // ---------- row chunks ----------

  lemma ChunkFits(n: nat, epr: nat, maxElements: nat)
    requires epr > 0 && 1 < n <= AtLeastOne(maxElements / epr)
    ensures n * epr <= maxElements
  {
    Scale(n, maxElements / epr, epr);
    assert maxElements == epr * (maxElements / epr) + maxElements % epr;
  }

  lemma NoMoreFits(n: nat, epr: nat, maxElements: nat)
    requires epr > 0 && n == AtLeastOne(maxElements / epr)
    ensures (n + 1) * epr > maxElements
  {
    QuotientFits(maxElements, epr);
    Scale(maxElements / epr + 1, n + 1, epr);
  }

  /** _row_chunks: consecutive runs of rows, in order, each holding at most max(maxElements, one
      row) elements, and none but the last with room for another row. */
  method RowChunks<A>(rows: seq<A>, elementsPerRow: nat, maxElements: nat) returns (chunks: seq<seq<A>>)
    ensures Flat(chunks) == rows
    ensures forall i :: 0 <= i < |chunks| ==> chunks[i] != []
    ensures forall i :: 0 <= i < |chunks| ==>
      |chunks[i]| == 1 || |chunks[i]| * AtLeastOne(elementsPerRow) <= maxElements
    ensures forall i :: 0 <= i < |chunks| - 1 ==> (|chunks[i]| + 1) * AtLeastOne(elementsPerRow) > maxElements
    ensures chunks == [] <==> rows == []
  {
    chunks := [];
    if rows == [] { return; }
    var epr := AtLeastOne(elementsPerRow);
    var step := AtLeastOne(maxElements / epr);
    var r0 := 0;
    hide AtLeastOne;
    while r0 < |rows|
      invariant r0 <= |rows| && ChunkedUpTo(rows, step, r0, chunks)
    {
      var r1 := if r0 + step < |rows| then r0 + step else |rows|;
      ChunkTaken(rows, step, r0, chunks, r1);
      hide ChunkedUpTo;
      chunks := chunks + [rows[r0..r1]];
      r0 := r1;
    }
    assert rows[..r0] == rows;
    ChunkSizes(chunks, step, epr, maxElements);
  }

  /** The chunks so far are the rows before r0. */
  ghost predicate ChunkedUpTo<A>(rows: seq<A>, step: nat, r0: nat, chunks: seq<seq<A>>) {
    && r0 <= |rows| && Flat(chunks) == rows[..r0] && Pieces(chunks, step) && (r0 > 0 ==> chunks != [])
    && (r0 < |rows| ==> forall i :: 0 <= i < |chunks| ==> |chunks[i]| == step)
  }

  lemma ChunkTaken<A>(rows: seq<A>, step: nat, r0: nat, chunks: seq<seq<A>>, r1: nat)
    requires step > 0 && r0 < |rows| && r1 == Min(r0 + step, |rows|) && ChunkedUpTo(rows, step, r0, chunks)
    ensures ChunkedUpTo(rows, step, r1, chunks + [rows[r0..r1]])
  {
    FlatAppend(chunks, rows[r0..r1]);
    assert rows[..r1] == rows[..r0] + rows[r0..r1];
    hide Flat;
  }

  lemma ChunkSizes<A>(chunks: seq<seq<A>>, step: nat, epr: nat, maxElements: nat)
    requires epr > 0 && step == AtLeastOne(maxElements / epr) && Pieces(chunks, step)
    ensures forall i :: 0 <= i < |chunks| ==> chunks[i] != [] && (|chunks[i]| == 1 || |chunks[i]| * epr <= maxElements)
    ensures forall i :: 0 <= i < |chunks| - 1 ==> (|chunks[i]| + 1) * epr > maxElements
  {
    NoMoreFits(step, epr, maxElements);
    forall i | 0 <= i < |chunks| ensures |chunks[i]| == 1 || |chunks[i]| * epr <= maxElements {
      if |chunks[i]| > 1 { ChunkFits(|chunks[i]|, epr, maxElements); }
    }
  }

  // ---------- quantising ----------

  /** A quantiser that treats every row of last-axis elements by itself. */
  datatype Quantizer<!V> = Quantizer(weight: seq<V> -> int, scale: seq<V> -> int, bias: Option<seq<V> -> int>)

  /** The three output arrays, with the leading axes of the input: first axis, then the product of
      the middle ones. */
  datatype Quantized = Quantized(weights: seq<seq<int>>, scales: seq<seq<int>>, biases: Option<seq<seq<int>>>)

  function Map<A, B>(f: A -> B, xs: seq<A>): (r: seq<B>)
    ensures |r| == |xs| && forall i :: 0 <= i < |xs| ==> r[i] == f(xs[i])
  {
    seq(|xs|, i requires 0 <= i < |xs| => f(xs[i]))
  }

  function MapRows<A, B>(f: A -> B, xss: seq<seq<A>>): (r: seq<seq<B>>)
    ensures |r| == |xss| && forall i :: 0 <= i < |xss| ==> r[i] == Map(f, xss[i])
  {
    seq(|xss|, i requires 0 <= i < |xss| => Map(f, xss[i]))
  }

  /** Quantising the whole tensor at once. */
  function Whole<V>(w: seq<seq<seq<V>>>, q: Quantizer<V>): Quantized {
    Quantized(MapRows(q.weight, w), MapRows(q.scale, w),
              if q.bias.Some? then Some(MapRows(q.bias.value, w)) else None)
  }

  /** Every first-axis row holds the same number of last-axis rows. */
  predicate Regular<V>(w: seq<seq<seq<V>>>, inner: nat) { inner > 0 && forall i :: 0 <= i < |w| ==> |w[i]| == inner }

  lemma MapJoins<A, B>(f: A -> B, a: seq<A>, b: seq<A>)
    ensures Map(f, a + b) == Map(f, a) + Map(f, b)
  {
  }

  /** Mapping the flattened rows and cutting them again is mapping in place. */
  lemma {:induction false} RegroupMapped<A, B>(f: A -> B, w: seq<seq<A>>, inner: nat)
    requires inner > 0 && forall i :: 0 <= i < |w| ==> |w[i]| == inner
    ensures |Map(f, Flat(w))| == |w| * inner
    ensures Rows(Map(f, Flat(w)), inner) == MapRows(f, w)
  {
    if w != [] {
      var front, last := w[..|w| - 1], w[|w| - 1];
      RegroupMapped(f, front, inner);
      MapJoins(f, Flat(front), last);
      assert |w| * inner == (|w| - 1) * inner + inner;
      RowsSplit(Map(f, Flat(front)), Map(f, last), inner, |w| - 1);
      assert Map(f, last)[..inner] == Map(f, last) && Map(f, last)[inner..] == [];
      assert MapRows(f, w) == MapRows(f, front) + [Map(f, last)];
    }
  }

  /** The chunks, flattened, through the quantiser one by one. */
  method QuantizeChunks<V>(chunks: seq<seq<seq<seq<V>>>>, q: Quantizer<V>)
    returns (weights: seq<int>, scales: seq<int>, biases: seq<int>)
    ensures weights == Map(q.weight, Flat(Flat(chunks))) && scales == Map(q.scale, Flat(Flat(chunks)))
    ensures biases == if q.bias.Some? then Map(q.bias.value, Flat(Flat(chunks))) else []
  {
    weights, scales, biases := [], [], [];
    for i := 0 to |chunks|
      invariant weights == Map(q.weight, Flat(Flat(chunks[..i])))
      invariant scales == Map(q.scale, Flat(Flat(chunks[..i])))
      invariant q.bias.Some? ==> biases == Map(q.bias.value, Flat(Flat(chunks[..i])))
      invariant q.bias.None? ==> biases == []
    {
      var flat := Flat(chunks[i]);
      assert chunks[..i + 1][..i] == chunks[..i];
      FlatJoins(Flat(chunks[..i]), chunks[i]);
      MapJoins(q.weight, Flat(Flat(chunks[..i])), flat);
      MapJoins(q.scale, Flat(Flat(chunks[..i])), flat);
      weights := weights + Map(q.weight, flat);
      scales := scales + Map(q.scale, flat);
      if q.bias.Some? {
        MapJoins(q.bias.value, Flat(Flat(chunks[..i])), flat);
        biases := biases + Map(q.bias.value, flat);
      }
    }
    assert chunks[..|chunks|] == chunks;
  }

  /** _quantize_chunked. A lazily stored tensor is always chunked; one without any row has nothing
      to concatenate and fails. Otherwise the result is the one-shot one, whatever the chunk size. */
  method QuantizeChunked<V>(w: seq<seq<seq<V>>>, inner: nat, last: nat, q: Quantizer<V>, lazy: bool,
                            group: nat, chunkBytes: nat) returns (r: Option<Quantized>, ghost calls: seq<seq<seq<seq<V>>>>)
    requires Regular(w, inner)
    ensures r.None? <==> lazy && w == []
    ensures r.Some? ==> r.value == Whole(w, q)
    // the tensor goes through the quantiser in runs of rows that are small enough, or single rows
    ensures Flat(calls) == w && Runs(calls, inner * last, group, chunkBytes)
  {
    var cap := Min(chunkBytes / 2, MAX_ELEMENTS);
    var maxElements := if cap < group then group else cap;
    EmptyIsSmall(inner * last);
    if !lazy && |w| * (inner * last) <= maxElements {
      assert Flat([w]) == Flat([]) + w;
      WithinLimit(|w| * (inner * last), maxElements, group, chunkBytes);
      return Some(Whole(w, q)), [w];
    }
    var chunks := RowChunks(w, inner * last, maxElements);
    calls := chunks;
    RunsAreSmall(chunks, inner * last, maxElements, group, chunkBytes);
    if chunks == [] { return None, []; }
    var weights, scales, biases := QuantizeChunks(chunks, q);
    RegroupMapped(q.weight, w, inner);
    RegroupMapped(q.scale, w, inner);
    if q.bias.Some? { RegroupMapped(q.bias.value, w, inner); }
    r := Some(Quantized(Rows(weights, inner), Rows(scales, inner),
                        if q.bias.Some? then Some(Rows(biases, inner)) else None));
  }

  /** One group of weights, or within half the buffer and the array library's element count. */
  predicate SmallEnough(elements: nat, group: nat, chunkBytes: nat) {
    elements <= group || (2 * elements <= chunkBytes && elements <= MAX_ELEMENTS)
  }

  /** Runs of rows of this many elements: small enough or single rows, and none but the last with room for
      another row. */
  ghost predicate Runs<A>(calls: seq<seq<A>>, perRow: nat, group: nat, chunkBytes: nat) {
    && (forall i :: 0 <= i < |calls| ==> |calls[i]| == 1 || SmallEnough(|calls[i]| * perRow, group, chunkBytes))
    && (perRow > 0 ==> forall i :: 0 <= i < |calls| - 1 ==> !SmallEnough((|calls[i]| + 1) * perRow, group, chunkBytes))
  }

  lemma WithinLimit(elements: nat, maxElements: nat, group: nat, chunkBytes: nat)
    requires maxElements == Max(group, Min(chunkBytes / 2, MAX_ELEMENTS))
    ensures SmallEnough(elements, group, chunkBytes) <==> elements <= maxElements
  {
  }

  lemma RunsAreSmall<A>(calls: seq<seq<A>>, perRow: nat, maxElements: nat, group: nat, chunkBytes: nat)
    requires maxElements == Max(group, Min(chunkBytes / 2, MAX_ELEMENTS))
    requires forall i :: 0 <= i < |calls| ==> |calls[i]| == 1 || |calls[i]| * AtLeastOne(perRow) <= maxElements
    requires forall i :: 0 <= i < |calls| - 1 ==> (|calls[i]| + 1) * AtLeastOne(perRow) > maxElements
    ensures Runs(calls, perRow, group, chunkBytes)
  {
    forall i | 0 <= i < |calls|
      ensures |calls[i]| == 1 || SmallEnough(|calls[i]| * perRow, group, chunkBytes)
      ensures perRow > 0 && i < |calls| - 1 ==> !SmallEnough((|calls[i]| + 1) * perRow, group, chunkBytes)
    {
      if perRow == 0 { EmptyIsSmall(|calls[i]|); }
      WithinLimit(|calls[i]| * perRow, maxElements, group, chunkBytes);
      WithinLimit((|calls[i]| + 1) * perRow, maxElements, group, chunkBytes);
    }
  }

  lemma EmptyIsSmall(k: nat)
    ensures 0 * k == k * 0 == 0
  {
  }
}
