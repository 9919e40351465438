/** The batched, left-padded KV cache (omlx/turboquant_kv.py, BatchTurboQuantKVCache). A quantised
    state is its rows of token entries; the codec is the identity. */
module BatchCache {
  import opened Common

  /** A state tensor: one row of entries per request, all of the same length. */
  datatype State<T> = State(rows: seq<seq<T>>, length: nat)

  predicate Rectangular<T>(s: State<T>) { forall i :: 0 <= i < |s.rows| ==> |s.rows[i]| == s.length }

  predicate Within(indices: seq<nat>, n: nat) { forall i :: 0 <= i < |indices| ==> indices[i] < n }

  function Pick<A>(xs: seq<A>, indices: seq<nat>): (r: seq<A>)
    requires Within(indices, |xs|)
    ensures |r| == |indices| && forall i :: 0 <= i < |r| ==> r[i] == xs[indices[i]]
  {
    seq(|indices|, i requires 0 <= i < |indices| && Within(indices, |xs|) => xs[indices[i]])
  }

  function FilterState<T>(s: State<T>, indices: seq<nat>): State<T>
    requires Within(indices, |s.rows|)
  {
    State(Pick(s.rows, indices), s.length)
  }

  function ConcatBatch<T>(a: State<T>, b: State<T>): State<T> { State(a.rows + b.rows, a.length) }

  function Zeros<T>(n: nat, zero: T): (r: seq<T>)
    ensures |r| == n
  {
    seq(n, _ => zero)
  }

  function PadLeft<T>(s: State<T>, n: nat, zero: T): (r: State<T>)
    ensures r.length == n + s.length && |r.rows| == |s.rows|
  {
    State(seq(|s.rows|, i requires 0 <= i < |s.rows| => Zeros(n, zero) + s.rows[i]), n + s.length)
  }

  /** dynamic_roll of one row to the right. */
  function Roll<T>(row: seq<T>, shift: int): seq<T> {
    if 0 <= shift <= |row| then row[|row| - shift..] + row[..|row| - shift] else row
  }

  function RollRows<T>(s: State<T>, shifts: seq<int>): State<T>
    requires |shifts| == |s.rows|
  {
    State(seq(|s.rows|, i requires 0 <= i < |s.rows| && |shifts| == |s.rows| => Roll(s.rows[i], shifts[i])), s.length)
  }

  /** The inherited write, taken to leave the columns before `at` followed by the new ones. */
  function WriteAt<T>(s: State<T>, at: nat, extra: State<T>): State<T>
    requires Rectangular(s) && at <= s.length && |extra.rows| == |s.rows|
  {
    State(seq(|s.rows|, i requires 0 <= i < |s.rows| && Rectangular(s) && at <= s.length && |extra.rows| == |s.rows|
      => s.rows[i][..at] + extra.rows[i]), at + extra.length)
  }

  function Greatest(xs: seq<int>): (m: int)
    requires xs != []
    ensures exists i :: 0 <= i < |xs| && xs[i] == m
    ensures forall i :: 0 <= i < |xs| ==> xs[i] <= m
  {
    if |xs| == 1 then xs[0]
    else
      var rest := Greatest(xs[1..]);
      assert forall i :: 1 <= i < |xs| ==> xs[i] == xs[1..][i - 1];
      if rest < xs[0] then xs[0] else rest
  }

  function Plus(xs: seq<int>, n: int): (r: seq<int>)
    ensures |r| == |xs| && forall i :: 0 <= i < |r| ==> r[i] == xs[i] + n
  {
    seq(|xs|, i requires 0 <= i < |xs| => xs[i] + n)
  }

  function PlusEach(xs: seq<int>, sign: int, ys: seq<int>): (r: seq<int>)
    requires |xs| == |ys|
    ensures |r| == |xs| && forall i :: 0 <= i < |r| ==> r[i] == xs[i] + sign * ys[i]
  {
    seq(|xs|, i requires 0 <= i < |xs| && |xs| == |ys| => xs[i] + sign * ys[i])
  }

  // ---------- rows behind their padding ----------

  /** Every row is its left padding followed by offset[i] tokens, and nothing else. */
  predicate Laid<T>(s: State<T>, pad: seq<int>, offset: seq<int>) {
    && Rectangular(s) && |s.rows| == |pad| == |offset|
    && forall i :: 0 <= i < |pad| ==> 0 <= pad[i] && 0 <= offset[i] && pad[i] + offset[i] == s.length
  }

  /** The tokens of each row. */
  function Tokens<T>(s: State<T>, pad: seq<int>, offset: seq<int>): (r: seq<seq<T>>)
    requires Laid(s, pad, offset)
    ensures |r| == |pad| && forall i :: 0 <= i < |pad| ==> r[i] == s.rows[i][pad[i]..pad[i] + offset[i]]
  {
    seq(|pad|, i requires 0 <= i < |pad| && Laid(s, pad, offset) => s.rows[i][pad[i]..pad[i] + offset[i]])
  }

  function Longest<T>(rows: seq<seq<T>>): (n: nat)
    ensures forall i :: 0 <= i < |rows| ==> |rows[i]| <= n
    ensures rows != [] ==> exists i :: 0 <= i < |rows| && |rows[i]| == n
  {
    if rows == [] then 0
    else
      var rest := Longest(rows[1..]);
      assert forall i :: 1 <= i < |rows| ==> rows[i] == rows[1..][i - 1];
      if rest <= |rows[0]| then |rows[0]| else rest
  }

  function PadEach<T>(rows: seq<seq<T>>, n: nat, zero: T): State<T>
    requires forall i :: 0 <= i < |rows| ==> |rows[i]| <= n
  {
    State(seq(|rows|, i requires 0 <= i < |rows| && |rows[i]| <= n => Zeros(n - |rows[i]|, zero) + rows[i]), n)
  }

  lemma PadEachTokens<T>(rows: seq<seq<T>>, n: nat, zero: T, pad: seq<int>, offset: seq<int>)
    requires forall i :: 0 <= i < |rows| ==> |rows[i]| <= n
    requires |pad| == |offset| == |rows|
    requires forall i :: 0 <= i < |rows| ==> offset[i] == |rows[i]| && pad[i] == n - |rows[i]|
    ensures Laid(PadEach(rows, n, zero), pad, offset)
    ensures Tokens(PadEach(rows, n, zero), pad, offset) == rows
  {
    var s := PadEach(rows, n, zero);
    forall i | 0 <= i < |rows| ensures s.rows[i][pad[i]..pad[i] + offset[i]] == rows[i] {}
  }

  /** Both states padded on the left to the wider one, then stacked. */
  function Stack<T>(a: State<T>, b: State<T>, zero: T): State<T> {
    var most := Max(a.length, b.length);
    ConcatBatch(PadLeft(a, most - a.length, zero), PadLeft(b, most - b.length, zero))
  }

  function StackPads(pa: seq<int>, n: nat, pb: seq<int>, m: nat): seq<int> {
    Plus(pa, Max(n, m) - n) + Plus(pb, Max(n, m) - m)
  }

  lemma StackTokens<T>(a: State<T>, b: State<T>, pa: seq<int>, pb: seq<int>, oa: seq<int>, ob: seq<int>, zero: T)
    requires Laid(a, pa, oa) && Laid(b, pb, ob)
    ensures var s, pad := Stack(a, b, zero), StackPads(pa, a.length, pb, b.length);
      && s.length == Max(a.length, b.length)
      && Laid(s, pad, oa + ob) && Tokens(s, pad, oa + ob) == Tokens(a, pa, oa) + Tokens(b, pb, ob)
  {
    var n, m := Max(a.length, b.length) - a.length, Max(a.length, b.length) - b.length;
    hide Laid, Tokens, PadLeft, Plus, Zeros, ConcatBatch;
    PadLeftTokens(a, pa, oa, n, zero);
    PadLeftTokens(b, pb, ob, m, zero);
    ConcatTokens(PadLeft(a, n, zero), PadLeft(b, m, zero), Plus(pa, n), Plus(pb, m), oa, ob);
  }

  lemma ConcatTokens<T>(a: State<T>, b: State<T>, pa: seq<int>, pb: seq<int>, oa: seq<int>, ob: seq<int>)
    requires Laid(a, pa, oa) && Laid(b, pb, ob) && a.length == b.length
    ensures ConcatBatch(a, b).length == a.length && Laid(ConcatBatch(a, b), pa + pb, oa + ob)
    ensures Tokens(ConcatBatch(a, b), pa + pb, oa + ob) == Tokens(a, pa, oa) + Tokens(b, pb, ob)
  {
  }

  lemma PadLeftTokens<T>(a: State<T>, pad: seq<int>, offset: seq<int>, n: nat, zero: T)
    requires Laid(a, pad, offset)
    ensures Laid(PadLeft(a, n, zero), Plus(pad, n), offset)
    ensures Tokens(PadLeft(a, n, zero), Plus(pad, n), offset) == Tokens(a, pad, offset)
  {
    var s := PadLeft(a, n, zero);
    assert forall i :: 0 <= i < |pad| ==> s.rows[i] == Zeros(n, zero) + a.rows[i];
    forall i | 0 <= i < |pad|
      ensures s.rows[i][n + pad[i]..n + pad[i] + offset[i]] == a.rows[i][pad[i]..pad[i] + offset[i]]
    {}
  }

  lemma FilterTokens<T>(s: State<T>, pad: seq<int>, offset: seq<int>, indices: seq<nat>)
    requires Laid(s, pad, offset) && Within(indices, |pad|)
    ensures Laid(FilterState(s, indices), Pick(pad, indices), Pick(offset, indices))
    ensures Tokens(FilterState(s, indices), Pick(pad, indices), Pick(offset, indices))
         == Pick(Tokens(s, pad, offset), indices)
  {
  }

  function Joined<T>(rows: seq<seq<T>>, extra: seq<seq<T>>): (r: seq<seq<T>>)
    requires |rows| == |extra|
    ensures |r| == |rows| && forall i :: 0 <= i < |r| ==> r[i] == rows[i] + extra[i]
  {
    seq(|rows|, i requires 0 <= i < |rows| && |rows| == |extra| => rows[i] + extra[i])
  }

  lemma WriteTokens<T>(s: State<T>, pad: seq<int>, offset: seq<int>, extra: State<T>)
    requires Laid(s, pad, offset) && Rectangular(extra) && |extra.rows| == |s.rows|
    ensures var out := WriteAt(s, s.length, extra);
      Laid(out, pad, Plus(offset, extra.length))
      && Tokens(out, pad, Plus(offset, extra.length)) == Joined(Tokens(s, pad, offset), extra.rows)
  {
    var out := WriteAt(s, s.length, extra);
    forall i | 0 <= i < |pad|
      ensures out.rows[i][pad[i]..pad[i] + (offset[i] + extra.length)]
           == s.rows[i][pad[i]..pad[i] + offset[i]] + extra.rows[i]
    {}
  }

  function Cut<T>(rows: seq<seq<T>>, padding: seq<int>): (r: seq<seq<T>>)
    requires |rows| == |padding| && forall i :: 0 <= i < |rows| ==> 0 <= padding[i] <= |rows[i]|
    ensures |r| == |rows| && forall i :: 0 <= i < |r| ==> r[i] == rows[i][..|rows[i]| - padding[i]]
  {
    seq(|rows|, i requires 0 <= i < |rows| && |rows| == |padding| && 0 <= padding[i] <= |rows[i]|
      => rows[i][..|rows[i]| - padding[i]])
  }

  /** Rolling moves what followed the left padding behind the former right padding. */
  lemma RollWindow<T>(row: seq<T>, pad: nat, n: nat, shift: nat)
    requires pad + n == |row| && shift <= n
    ensures Roll(row, shift)[pad + shift..pad + n] == row[pad..pad + n][..n - shift]
  {
  }

  lemma RollTokens<T>(s: State<T>, pad: seq<int>, offset: seq<int>, padding: seq<int>)
    requires Laid(s, pad, offset) && |padding| == |pad|
    requires forall i :: 0 <= i < |pad| ==> 0 <= padding[i] <= offset[i]
    ensures var out := RollRows(s, padding);
      var pad', offset' := PlusEach(pad, 1, padding), PlusEach(offset, -1, padding);
      Laid(out, pad', offset') && Tokens(out, pad', offset') == Cut(Tokens(s, pad, offset), padding)
  {
    var out := RollRows(s, padding);
    var pad', offset' := PlusEach(pad, 1, padding), PlusEach(offset, -1, padding);
    forall i | 0 <= i < |pad|
      ensures out.rows[i][pad'[i]..pad'[i] + offset'[i]]
           == s.rows[i][pad[i]..pad[i] + offset[i]][..offset[i] - padding[i]]
    {
      RollWindow(s.rows[i], pad[i], offset[i], padding[i]);
    }
  }

  // ---------- what a batch means ----------

  /** A batch, abstractly: the tokens of its requests and the number of columns it is padded to. */
  datatype Spec<T> = Spec(keys: seq<seq<T>>, values: seq<seq<T>>, length: nat)

  ghost predicate Proper<T>(s: Spec<T>) {
    && |s.keys| == |s.values|
    && forall i :: 0 <= i < |s.keys| ==> |s.keys[i]| == |s.values[i]| <= s.length
  }

  /** Some request fills all the columns: its row has no left padding. */
  ghost predicate Full<T>(s: Spec<T>) { exists i :: 0 <= i < |s.keys| && |s.keys[i]| == s.length }

  function Extended<T>(a: Spec<T>, b: Spec<T>): Spec<T> {
    Spec(a.keys + b.keys, a.values + b.values, Max(a.length, b.length))
  }

  function Filtered<T>(a: Spec<T>, indices: seq<nat>): Spec<T>
    requires Within(indices, |a.keys|) && |a.values| == |a.keys|
  {
    Spec(Pick(a.keys, indices), Pick(a.values, indices), a.length)
  }

  function Appended<T>(a: Spec<T>, ks: State<T>, vs: State<T>): Spec<T>
    requires |ks.rows| == |vs.rows| == |a.keys| == |a.values|
  {
    Spec(Joined(a.keys, ks.rows), Joined(a.values, vs.rows), a.length + ks.length)
  }

  /** Every request loses its last padding[i] tokens, which were right padding. */
  function Trimmed<T>(a: Spec<T>, padding: seq<int>): Spec<T>
    requires Proper(a) && Trims(a, padding)
  {
    Spec(Cut(a.keys, padding), Cut(a.values, padding), a.length)
  }

  predicate Trims<T>(a: Spec<T>, padding: seq<int>) {
    |padding| == |a.keys| && forall i :: 0 <= i < |padding| ==> 0 <= padding[i] <= |a.keys[i]|
  }

  lemma FullMeansUnpadded<T>(s: Spec<T>, pad: seq<int>, offset: seq<int>)
    requires |s.keys| == |pad| == |offset|
    requires forall i :: 0 <= i < |pad| ==> |s.keys[i]| == offset[i] && pad[i] + offset[i] == s.length
    ensures Full(s) <==> exists i :: 0 <= i < |pad| && pad[i] == 0
  {
    if Full(s) {
      var i :| 0 <= i < |s.keys| && |s.keys[i]| == s.length;
      assert pad[i] == 0;
    }
    if i :| 0 <= i < |pad| && pad[i] == 0 {
      assert |s.keys[i]| == s.length;
    }
  }

  /** Writing new columns at the largest offset keeps every row in place if and only if some row has
      no left padding, and then every row gains exactly its new tokens. */
  lemma AppendLaid<T>(s: State<T>, pad: seq<int>, offset: seq<int>, extra: State<T>)
    requires Laid(s, pad, offset) && pad != [] && Rectangular(extra) && |extra.rows| == |s.rows|
    ensures Greatest(offset) <= s.length
    ensures var out := WriteAt(s, Greatest(offset), extra);
      && (Laid(out, pad, Plus(offset, extra.length)) <==> exists i :: 0 <= i < |pad| && pad[i] == 0)
      && (Laid(out, pad, Plus(offset, extra.length)) ==>
            && out.length == s.length + extra.length
            && Tokens(out, pad, Plus(offset, extra.length)) == Joined(Tokens(s, pad, offset), extra.rows))
  {
    var at, offset' := Greatest(offset), Plus(offset, extra.length);
    var m :| 0 <= m < |offset| && offset[m] == at;
    assert pad[m] + offset[m] == s.length;
    if i :| 0 <= i < |pad| && pad[i] == 0 {
      assert offset[i] == s.length == at;
      WriteTokens(s, pad, offset, extra);
    } else {
      assert pad[m] > 0 && pad[m] + offset'[m] == s.length + extra.length > at + extra.length;
    }
  }

  /** Two requests of one and two tokens are merged and the longer one is dropped: the next append
      overwrites the token of the other. */
  lemma AppendOverwrites<T>(x: T, y: T, z: T, w: T, zero: T)
    ensures var merged := PadEach([[x], [y, z]], 2, zero);
      var kept := FilterState(merged, [0]);
      && merged.rows == [[zero, x], [y, z]] && kept.rows == [[zero, x]] && Laid(kept, [1], [1])
      && WriteAt(kept, Greatest([1]), State([[w]], 1)).rows == [[zero, w]]
  {
    var rows := [[x], [y, z]];
    var merged := PadEach(rows, 2, zero);
    assert Zeros(1, zero) == [zero] && Zeros(0, zero) == [];
    assert rows[0] == [x] && rows[1] == [y, z] && 2 - |rows[1]| == 0;
    assert merged.rows[1] == Zeros(2 - |rows[1]|, zero) + rows[1];
    assert merged.rows[0] == Zeros(1, zero) + [x];
    assert merged.rows[1] == Zeros(0, zero) + [y, z];
    assert [zero] + [x] == [zero, x] && [] + [y, z] == [y, z];
    assert merged.rows == [[zero, x], [y, z]];
    var kept := FilterState(merged, [0]);
    assert kept.rows == [[zero, x]];
    assert Greatest([1]) == 1;
    var out := WriteAt(kept, 1, State([[w]], 1));
    assert out.rows[0] == [zero, x][..1] + [w] && [zero, x][..1] + [w] == [zero, w];
    assert out.rows == [[zero, w]];
  }

  /** Which operations keep a row without left padding: merge makes one, extend keeps one when the
      wider batch had one, and filter keeps one exactly when it keeps such a row. */
  lemma FullThroughOperations<T>(a: Spec<T>, b: Spec<T>, indices: seq<nat>)
    requires Proper(a) && Proper(b) && Within(indices, |a.keys|)
    ensures Full(Extended(a, b)) <==> (Full(a) && b.length <= a.length) || (Full(b) && a.length <= b.length)
    ensures Full(Filtered(a, indices)) <==> exists j :: 0 <= j < |indices| && |a.keys[indices[j]]| == a.length
  {
    var e, f := Extended(a, b), Filtered(a, indices);
    if Full(a) && b.length <= a.length {
      var i :| 0 <= i < |a.keys| && |a.keys[i]| == a.length;
      assert e.keys[i] == a.keys[i];
    }
    if Full(b) && a.length <= b.length {
      var i :| 0 <= i < |b.keys| && |b.keys[i]| == b.length;
      assert e.keys[|a.keys| + i] == b.keys[i];
    }
    if Full(e) {
      var i :| 0 <= i < |e.keys| && |e.keys[i]| == e.length;
      if i < |a.keys| { assert |a.keys[i]| <= a.length; } else { assert |b.keys[i - |a.keys|]| <= b.length; }
    }
    if j :| 0 <= j < |indices| && |a.keys[indices[j]]| == a.length { assert |f.keys[j]| == f.length; }
  }

  // ---------- the attention mask ----------

  /** make_mask for one row: may query n of N attend to this column? */
  predicate Allowed(pad: int, offset: int, window: Option<nat>, n: nat, column: nat) {
    && column <= offset + n
    && (window.Some? ==> offset + n < column + window.value)
    && pad <= column
  }

  /** Query n of a row is written at column pad + offset + n; causally it may see its own row's
      columns up to there. */
  predicate Causal(pad: int, offset: int, n: nat, column: nat) { pad <= column <= pad + offset + n }

  /** The mask never lets a row see its padding or a later token. */
  lemma MaskIsSafe(pad: nat, offset: nat, window: Option<nat>, n: nat, column: nat)
    requires Allowed(pad, offset, window, n, column)
    ensures Causal(pad, offset, n, column)
  {
  }

  function Interval(lo: nat, n: nat): (r: set<nat>)
    ensures |r| == n && forall c: nat :: c in r <==> lo <= c < lo + n
    decreases n
  {
    if n == 0 then {} else {lo} + Interval(lo + 1, n - 1)
  }

  /** A window of w lets a query see the w columns up to its own position, less those in the padding; and
      without one it sees all of them. */
  lemma MaskIsWindow(pad: nat, offset: nat, window: Option<nat>, n: nat)
    ensures var seen := set column: nat | column <= offset + n && Allowed(pad, offset, window, n, column);
      var unpadded := Max(0, offset + n + 1 - pad);
      && |seen| == (if window.Some? then Min(window.value, unpadded) else unpadded)
      && forall column: nat :: column in seen <==> offset + n - |seen| < column <= offset + n
  {
    var seen := set column: nat | column <= offset + n && Allowed(pad, offset, window, n, column);
    var unpadded := Max(0, offset + n + 1 - pad);
    var wide := if window.Some? then Min(window.value, unpadded) else unpadded;
    assert seen == Interval(offset + n + 1 - wide, wide);
  }

  /** Without a window, in a laid-out batch that has a row without left padding, the mask of a
      non-empty row is the causal one if and only if that row has no left padding: a padded row
      cannot see its own latest tokens. */
  lemma MaskIsCausalIffUnpadded(pads: seq<int>, offsets: seq<int>, length: nat, i: nat, N: pos)
    requires |pads| == |offsets| && i < |pads| && offsets[i] > 0
    requires forall j :: 0 <= j < |pads| ==> 0 <= pads[j] && 0 <= offsets[j] && pads[j] + offsets[j] == length
    requires exists j :: 0 <= j < |pads| && pads[j] == 0
    ensures pads[i] == 0 <==>
      forall n: nat, column: nat :: n < N && column < Greatest(offsets) + N ==>
        (Allowed(pads[i], offsets[i], None, n, column) <==> Causal(pads[i], offsets[i], n, column))
  {
    var j :| 0 <= j < |pads| && pads[j] == 0;
    assert offsets[j] == length <= Greatest(offsets);
    if pads[i] > 0 {
      assert Causal(pads[i], offsets[i], 0, length) && !Allowed(pads[i], offsets[i], None, 0, length);
    }
  }

  // ---------- the cache ----------

  class Cache<T> {
    const zero: T
    var keys: State<T>
    var values: State<T>
    var offset: seq<int>
    var leftPadding: seq<int>
    var rightPadding: Option<seq<int>>

    ghost predicate Valid()
      reads this
    {
      && Laid(keys, leftPadding, offset) && Laid(values, leftPadding, offset)
      && offset != []
      && (rightPadding.Some? ==> Trims(Abs(), rightPadding.value))
    }

    ghost function Abs(): (s: Spec<T>)
      requires Laid(keys, leftPadding, offset) && Laid(values, leftPadding, offset) && offset != []
      ensures Proper(s) && |s.keys| == |offset|
      ensures forall i :: 0 <= i < |offset| ==> |s.keys[i]| == offset[i]
      reads this
    {
      Spec(Tokens(keys, leftPadding, offset), Tokens(values, leftPadding, offset), keys.length)
    }

    lemma Shape()
      requires Valid()
      ensures values.length == keys.length && |keys.rows| == |values.rows| == |offset| == |leftPadding|
      ensures Rectangular(keys) && Rectangular(values)
      ensures Greatest(offset) <= keys.length && 0 <= Greatest(offset)
      ensures Full(Abs()) <==> exists i :: 0 <= i < |leftPadding| && leftPadding[i] == 0
    {
      assert leftPadding[0] + offset[0] == values.length;
      FullMeansUnpadded(Abs(), leftPadding, offset);
    }

    /** merge: pads every cache on the left to the longest. */
    constructor Merge(ks: seq<seq<T>>, vs: seq<seq<T>>, zero: T)
      requires ks != [] && |ks| == |vs| && forall i :: 0 <= i < |ks| ==> 0 < |ks[i]| == |vs[i]|
      ensures Valid() && rightPadding == None
      ensures Abs() == Spec(ks, vs, Longest(ks))
    {
      this.zero := zero;
      var n := Longest(ks);
      var padding := seq(|ks|, i requires 0 <= i < |ks| => n - |ks[i]|);
      var start := seq(|ks|, i requires 0 <= i < |ks| && |padding| == |ks| => -padding[i]);
      keys := PadEach(ks, n, zero);
      values := PadEach(vs, n, zero);
      offset := Plus(start, n);
      leftPadding := padding;
      rightPadding := None;
      PadEachTokens(ks, n, zero, padding, Plus(start, n));
      PadEachTokens(vs, n, zero, padding, Plus(start, n));
    }

    /** extend: both batches are padded on the left to the longer one, then stacked. */
    method Extend(other: Cache<T>)
      requires Valid() && other.Valid() && other != this && rightPadding == None
      modifies this
      ensures Valid() && rightPadding == None
      ensures Abs() == Extended(old(Abs()), old(other.Abs()))
    {
      assert leftPadding[0] + offset[0] == keys.length == values.length;
      assert other.leftPadding[0] + other.offset[0] == other.keys.length == other.values.length;
      hide Stack, StackPads, Laid, Tokens;
      StackTokens(keys, other.keys, leftPadding, other.leftPadding, offset, other.offset, zero);
      StackTokens(values, other.values, leftPadding, other.leftPadding, offset, other.offset, zero);
      leftPadding := StackPads(leftPadding, keys.length, other.leftPadding, other.keys.length);
      keys := Stack(keys, other.keys, zero);
      values := Stack(values, other.values, zero);
      offset := offset + other.offset;
    }

    /** filter: keeps the chosen rows and, as the code does, their padding. */
    method Filter(indices: seq<nat>)
      requires Valid() && rightPadding == None && indices != [] && Within(indices, |offset|)
      modifies this
      ensures Valid() && rightPadding == None
      ensures Abs() == Filtered(old(Abs()), indices)
    {
      FilterTokens(keys, leftPadding, offset, indices);
      FilterTokens(values, leftPadding, offset, indices);
      keys := FilterState(keys, indices);
      values := FilterState(values, indices);
      offset := Pick(offset, indices);
      leftPadding := Pick(leftPadding, indices);
    }

    /** update_and_fetch: the inherited write happens at the largest offset, which keeps every row
        in place exactly when some row has no left padding. */
    method Append(ks: State<T>, vs: State<T>)
      requires Valid() && rightPadding == None
      requires |ks.rows| == |vs.rows| == |offset| && ks.length == vs.length && Rectangular(ks) && Rectangular(vs)
      modifies this
      ensures rightPadding == None && leftPadding == old(leftPadding) && offset == Plus(old(offset), ks.length)
      ensures Valid() <==> old(Full(Abs()))
      ensures Valid() ==> Abs() == Appended(old(Abs()), ks, vs)
    {
      hide Tokens, WriteAt, Laid, Plus, Rectangular, Greatest, Full, Joined, Proper;
      Shape();
      AppendLaid(keys, leftPadding, offset, ks);
      AppendLaid(values, leftPadding, offset, vs);
      var at := Greatest(offset);
      keys := WriteAt(keys, at, ks);
      values := WriteAt(values, at, vs);
      offset := Plus(offset, ks.length);
    }

    /** prepare: remembers right padding unless it is all zero. */
    method PrepareRight(padding: seq<int>)
      requires Valid() && Trims(Abs(), padding)
      modifies this`rightPadding
      ensures Valid()
      ensures rightPadding == if Greatest(padding) > 0 then Some(padding) else old(rightPadding)
    {
      if Greatest(padding) > 0 { rightPadding := Some(padding); }
    }

    /** finalize: rolls each row so that its right padding becomes left padding. */
    method Finalize()
      requires Valid()
      modifies this
      ensures Valid() && rightPadding == None
      ensures Abs() == if old(rightPadding).None? then old(Abs()) else Trimmed(old(Abs()), old(rightPadding).value)
    {
      if rightPadding.None? { return; }
      var padding := rightPadding.value;
      RollTokens(keys, leftPadding, offset, padding);
      RollTokens(values, leftPadding, offset, padding);
      keys := RollRows(keys, padding);
      values := RollRows(values, padding);
      offset := PlusEach(offset, -1, padding);
      leftPadding := PlusEach(leftPadding, 1, padding);
      rightPadding := None;
    }

    method Extract(i: nat) returns (k: seq<T>, v: seq<T>)
      requires Valid() && i < |offset|
      ensures k == Abs().keys[i] && v == Abs().values[i]
    {
      var lo := leftPadding[i];
      var hi := lo + offset[i];
      k, v := keys.rows[i][lo..hi], values.rows[i][lo..hi];
    }
  }

  // ---------- any sequence of operations ----------

  /** One scheduler action on a batch. Finish is prepare(right_padding) followed by finalize. */
  datatype Op<T> =
    | Join(ks: seq<seq<T>>, vs: seq<seq<T>>)
    | Keep(indices: seq<nat>)
    | Write(kcols: State<T>, vcols: State<T>)
    | Finish(padding: seq<int>)

  ghost predicate NonEmptyCaches<T>(ks: seq<seq<T>>, vs: seq<seq<T>>) {
    ks != [] && |ks| == |vs| && forall i :: 0 <= i < |ks| ==> 0 < |ks[i]| == |vs[i]|
  }

  ghost predicate Legal<T>(s: Spec<T>, op: Op<T>) {
    && Proper(s) && s.keys != []
    && match op
       case Join(ks, vs) => NonEmptyCaches(ks, vs)
       case Keep(indices) => indices != [] && Within(indices, |s.keys|)
       case Write(kcols, vcols) =>
         && |kcols.rows| == |vcols.rows| == |s.keys| && kcols.length == vcols.length
         && Rectangular(kcols) && Rectangular(vcols) && Full(s)
       case Finish(padding) => Trims(s, padding)
  }

  ghost function Next<T>(s: Spec<T>, op: Op<T>): Spec<T>
    requires Legal(s, op)
  {
    match op
    case Join(ks, vs) => Extended(s, Spec(ks, vs, Longest(ks)))
    case Keep(indices) => Filtered(s, indices)
    case Write(kcols, vcols) => Appended(s, kcols, vcols)
    case Finish(padding) => Trimmed(s, padding)
  }

  ghost predicate AllLegal<T>(s: Spec<T>, ops: seq<Op<T>>)
    decreases |ops|
  {
    ops == [] || (Legal(s, ops[0]) && AllLegal(Next(s, ops[0]), ops[1..]))
  }

  ghost function Outcome<T>(s: Spec<T>, ops: seq<Op<T>>): Spec<T>
    requires AllLegal(s, ops)
    decreases |ops|
  {
    if ops == [] then s else Outcome(Next(s, ops[0]), ops[1..])
  }

  /** Whatever the sequence of operations, extracting every row at the end returns exactly the
      tokens each request would have without batching. */
  method Serve<T>(ks: seq<seq<T>>, vs: seq<seq<T>>, zero: T, ops: seq<Op<T>>) returns (outK: seq<seq<T>>, outV: seq<seq<T>>)
    requires NonEmptyCaches(ks, vs)
    requires AllLegal(Spec(ks, vs, Longest(ks)), ops)
    ensures outK == Outcome(Spec(ks, vs, Longest(ks)), ops).keys
    ensures outV == Outcome(Spec(ks, vs, Longest(ks)), ops).values
  {
    hide Laid, Tokens, Rectangular, Legal, Next, Longest, Proper, Full;
    ghost var goal := Outcome(Spec(ks, vs, Longest(ks)), ops);
    var cache := new Cache<T>.Merge(ks, vs, zero);
    for i := 0 to |ops|
      invariant fresh(cache) && cache.Valid() && cache.rightPadding == None
      invariant AllLegal(cache.Abs(), ops[i..]) && Outcome(cache.Abs(), ops[i..]) == goal
    {
      assert ops[i..][1..] == ops[i + 1..];
      ghost var before := cache.Abs();
      Perform(cache, ops[i], zero);
      assert cache.Abs() == Next(before, ops[i]);
    }
    assert ops[|ops|..] == [];
    outK, outV := ExtractAll(cache);
  }

  method ExtractAll<T>(cache: Cache<T>) returns (outK: seq<seq<T>>, outV: seq<seq<T>>)
    requires cache.Valid()
    ensures outK == cache.Abs().keys && outV == cache.Abs().values
  {
    outK, outV := [], [];
    for i := 0 to |cache.offset|
      invariant outK == cache.Abs().keys[..i] && outV == cache.Abs().values[..i]
    {
      var k, v := cache.Extract(i);
      outK, outV := outK + [k], outV + [v];
    }
  }

  lemma NothingTrimmed<T>(s: Spec<T>, padding: seq<int>)
    requires Proper(s) && Trims(s, padding) && s.keys != [] && Greatest(padding) <= 0
    ensures Trimmed(s, padding) == s
  {
    assert forall i :: 0 <= i < |padding| ==> padding[i] == 0;
    CutNothing(s.keys, padding);
    CutNothing(s.values, padding);
  }

  lemma CutNothing<T>(rows: seq<seq<T>>, padding: seq<int>)
    requires |rows| == |padding| && forall i :: 0 <= i < |rows| ==> padding[i] == 0
    ensures Cut(rows, padding) == rows
  {
    forall i | 0 <= i < |rows| ensures Cut(rows, padding)[i] == rows[i] {
      assert rows[i][..|rows[i]|] == rows[i];
    }
  }

  method Perform<T>(cache: Cache<T>, op: Op<T>, zero: T)
    requires cache.Valid() && cache.rightPadding == None && Legal(cache.Abs(), op)
    modifies cache
    ensures cache.Valid() && cache.rightPadding == None
    ensures cache.Abs() == Next(old(cache.Abs()), op)
  {
    hide Laid, Tokens, Rectangular, Longest, Full, Extended, Filtered, Appended, Greatest;
    cache.Shape();
    ghost var before := cache.Abs();
    if op.Join? {
      var other := new Cache<T>.Merge(op.ks, op.vs, zero);
      cache.Extend(other);
    } else if op.Keep? {
      cache.Filter(op.indices);
    } else if op.Write? {
      cache.Append(op.kcols, op.vcols);
    } else {
      cache.PrepareRight(op.padding);
      cache.Finalize();
      if Greatest(op.padding) <= 0 { NothingTrimmed(before, op.padding); }
    }
  }
}
