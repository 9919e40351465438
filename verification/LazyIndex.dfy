/** The lazy weight dictionary (omlx/oq.py, _LazyTensorIndex): FP8 weights are decoded with their
    scale on access, and the scale keys are hidden. To a client it is a plain map. */
module LazyIndex {
  import opened Common

  /** Where a stored tensor is, and whether its type is one of the FP8 weight types. */
  datatype Meta = Meta(location: nat, fp8Weight: bool)

  /** The weight a key would be the scale of, by its name. */
  function WeightOf(k: string): Option<string> {
    if EndsWith(k, "_scale_inv") then Some(k[..|k| - 10])
    else if EndsWith(k, ".scale") then Some(k[..|k| - 6] + ".weight")
    else None
  }

  /** k names the scale of an FP8 weight that is present. */
  predicate Scales(k: string, index: map<string, Meta>) {
    WeightOf(k).Some? && WeightOf(k).value in index && index[WeightOf(k).value].fp8Weight
  }

  /** A client's operation and its outcome. */
  datatype Op<V> =
    | Get(key: string)
    | Has(key: string)
    | Size
    | Put(key: string, value: V)
    | Delete(key: string)
    | Pop(key: string)
    | Update(entries: seq<(string, V)>)

  datatype Outcome<V> = Found(value: V) | Absent | Yes | No | Count(n: nat) | Done

  function PutAll<V>(m: map<string, V>, entries: seq<(string, V)>): map<string, V>
    decreases |entries|
  {
    if entries == [] then m else PutAll(m[entries[0].0 := entries[0].1], entries[1..])
  }

  /** The same operations on a plain map; deleting an absent key is allowed. */
  function Next<V>(m: map<string, V>, op: Op<V>): map<string, V> {
    match op
    case Put(k, v) => m[k := v]
    case Delete(k) => m - {k}
    case Pop(k) => m - {k}
    case Update(entries) => PutAll(m, entries)
    case _ => m
  }

  function Answer<V>(m: map<string, V>, op: Op<V>): Outcome<V> {
    match op
    case Get(k) => if k in m then Found(m[k]) else Absent
    case Pop(k) => if k in m then Found(m[k]) else Absent
    case Has(k) => if k in m then Yes else No
    case Size => Count(|m|)
    case _ => Done
  }

  function Answers<V>(m: map<string, V>, ops: seq<Op<V>>): seq<Outcome<V>>
    decreases |ops|
  {
    if ops == [] then [] else [Answer(m, ops[0])] + Answers(Next(m, ops[0]), ops[1..])
  }

  function Finally<V>(m: map<string, V>, ops: seq<Op<V>>): map<string, V>
    decreases |ops|
  {
    if ops == [] then m else Finally(Next(m, ops[0]), ops[1..])
  }

  /** The keys an operation names. */
  function Named<V>(op: Op<V>): set<string> {
    match op
    case Size => {}
    case Update(entries) => set i | 0 <= i < |entries| :: entries[i].0
    case Get(k) => {k}
    case Has(k) => {k}
    case Put(k, _) => {k}
    case Delete(k) => {k}
    case Pop(k) => {k}
  }

  /** The scale keys that an operation takes out of hiding: deleting or popping a paired weight takes its
      scale with it. */
  function Revealed<V>(op: Op<V>, m: map<string, V>, pairs: map<string, string>): set<string> {
    match op
    case Delete(k) => if k in pairs then {pairs[k]} else {}
    case Pop(k) => if k in m && k in pairs then {pairs[k]} else {}
    case _ => {}
  }

  /** The pairs it leaves: weights that it assigns, deletes or pops are paired no longer. */
  function Unpaired<V>(op: Op<V>, m: map<string, V>, pairs: map<string, string>): map<string, string> {
    match op
    case Put(k, _) => pairs - {k}
    case Update(_) => pairs - Named(op)
    case Delete(k) => pairs - {k}
    case Pop(k) => if k in m then pairs - {k} else pairs
    case _ => pairs
  }

  /** No operation names a key that is hidden when its turn comes. */
  ghost predicate Discreet<V>(ops: seq<Op<V>>, m: map<string, V>, pairs: map<string, string>, hidden: set<string>)
    decreases |ops|
  {
    ops == [] ||
    (Named(ops[0]) !! hidden
     && Discreet(ops[1..], Next(m, ops[0]), Unpaired(ops[0], m, pairs), hidden - Revealed(ops[0], m, pairs)))
  }

  // ---------- the four fields as one value ----------

  datatype Fields<V> = Fields(index: map<string, Meta>, pairs: map<string, string>, hidden: set<string>, overrides: map<string, V>)

  /** Overrides never shadow the index, a hidden key or a paired weight; every paired scale is
      hidden, belongs to one weight only, and is present as long as its weight can be seen. */
  ghost predicate Good<V>(f: Fields<V>) {
    && f.index.Keys !! f.overrides.Keys && f.overrides.Keys !! f.hidden && f.overrides.Keys !! f.pairs.Keys
    && (forall w <- f.pairs :: f.pairs[w] in f.hidden && (w in f.index && w !in f.hidden ==> f.pairs[w] in f.index))
    && (forall v, w :: v in f.pairs && w in f.pairs && v != w ==> f.pairs[v] != f.pairs[w])
  }

  function Open<V>(f: Fields<V>, k: string, load: Meta -> V, dequant: (Meta, Meta) -> V): V
    requires k in f.index && (k in f.pairs ==> f.pairs[k] in f.index)
  {
    if k in f.pairs then dequant(f.index[k], f.index[f.pairs[k]]) else load(f.index[k])
  }

  /** The map a client sees. */
  ghost function View<V>(f: Fields<V>, load: Meta -> V, dequant: (Meta, Meta) -> V): map<string, V>
    requires Good(f)
  {
    (map k | k in f.index && k !in f.hidden :: Open(f, k, load, dequant)) + f.overrides
  }

  /** Decoding does not change where the index and the pairing agree. */
  lemma SameView<V>(f: Fields<V>, g: Fields<V>, k: string, load: Meta -> V, dequant: (Meta, Meta) -> V)
    requires Good(f) && Good(g)
    requires forall x :: x != k ==> (x in g.index && x !in g.hidden <==> x in f.index && x !in f.hidden)
    requires forall x <- g.index :: x in f.index && g.index[x] == f.index[x]
    requires forall x <- g.index :: x !in g.hidden ==> (x in g.pairs <==> x in f.pairs) && (x in g.pairs ==> g.pairs[x] == f.pairs[x])
    requires k !in g.index && g.overrides - {k} == f.overrides - {k}
    ensures View(g, load, dequant) - {k} == View(f, load, dequant) - {k}
    ensures k in View(g, load, dequant) ==> k in g.overrides && View(g, load, dequant)[k] == g.overrides[k]
    ensures k in g.overrides ==> k in View(g, load, dequant)
  {
    forall x | x != k
      ensures x in View(g, load, dequant) <==> x in View(f, load, dequant)
      ensures x in View(g, load, dequant) ==> View(g, load, dequant)[x] == View(f, load, dequant)[x]
    {
      assert x in g.overrides <==> x in g.overrides - {k};
      assert x in f.overrides <==> x in f.overrides - {k};
    }
  }

  lemma AssignedGood<V>(f: Fields<V>, k: string, v: V)
    requires Good(f) && k !in f.hidden
    ensures Good(Fields(f.index - {k}, f.pairs - {k}, f.hidden, f.overrides[k := v]))
  {
  }

  lemma AssignedView<V>(f: Fields<V>, k: string, v: V, load: Meta -> V, dequant: (Meta, Meta) -> V)
    requires Good(f) && k !in f.hidden
    ensures var g := Fields(f.index - {k}, f.pairs - {k}, f.hidden, f.overrides[k := v]);
      Good(g) && View(g, load, dequant) == View(f, load, dequant)[k := v]
  {
    AssignedGood(f, k, v);
    SameView(f, Fields(f.index - {k}, f.pairs - {k}, f.hidden, f.overrides[k := v]), k, load, dequant);
    hide Good, View;
    var m, n := View(f, load, dequant), View(Fields(f.index - {k}, f.pairs - {k}, f.hidden, f.overrides[k := v]), load, dequant);
    Patched(m, n, k, v);
  }

  lemma Patched<V>(m: map<string, V>, n: map<string, V>, k: string, v: V)
    requires n - {k} == m - {k} && k in n && n[k] == v
    ensures n == m[k := v]
  {
    forall x | x != k
      ensures (x in n <==> x in m) && (x in n ==> n[x] == m[x])
    {
      assert (x in n <==> x in n - {k}) && (x in m <==> x in m - {k});
    }
  }

  /** Removing a key that is not a paired weight. */
  lemma RemovedView<V>(f: Fields<V>, k: string, load: Meta -> V, dequant: (Meta, Meta) -> V)
    requires Good(f) && k !in f.hidden && k !in f.pairs
    ensures var g := Fields(f.index - {k}, f.pairs, f.hidden, f.overrides - {k});
      Good(g) && View(g, load, dequant) == View(f, load, dequant) - {k}
  {
    var g := Fields(f.index - {k}, f.pairs, f.hidden, f.overrides - {k});
    SameView(f, g, k, load, dequant);
    assert View(g, load, dequant) - {k} == View(g, load, dequant);
  }

  /** Removing a paired weight takes its scale along. */
  lemma UnpairedView<V>(f: Fields<V>, k: string, load: Meta -> V, dequant: (Meta, Meta) -> V)
    requires Good(f) && k !in f.hidden && k in f.pairs
    ensures var g := Fields(f.index - {f.pairs[k]} - {k}, f.pairs - {k}, f.hidden - {f.pairs[k]}, f.overrides - {k});
      Good(g) && View(g, load, dequant) == View(f, load, dequant) - {k}
  {
    var g := Fields(f.index - {f.pairs[k]} - {k}, f.pairs - {k}, f.hidden - {f.pairs[k]}, f.overrides - {k});
    UnpairedGood(f, k);
    SameView(f, g, k, load, dequant);
    hide Good, View;
    assert View(g, load, dequant) - {k} == View(g, load, dequant);
  }

  lemma UnpairedGood<V>(f: Fields<V>, k: string)
    requires Good(f) && k !in f.hidden && k in f.pairs
    ensures Good(Fields(f.index - {f.pairs[k]} - {k}, f.pairs - {k}, f.hidden - {f.pairs[k]}, f.overrides - {k}))
  {
  }

  /** Where a key is found, and what removing it leaves alone. */
  lemma Elsewhere<V>(f: Fields<V>, k: string, load: Meta -> V, dequant: (Meta, Meta) -> V)
    requires Good(f) && k !in f.hidden
    ensures k in f.overrides ==> k !in f.index && k !in f.pairs && f.index - {k} == f.index
    ensures k in f.index && k in f.pairs ==> f.pairs[k] in f.index
    ensures Answer(View(f, load, dequant), Pop(k)) ==
            if k in f.overrides then Found(f.overrides[k])
            else if k in f.index then Found(Open(f, k, load, dequant)) else Absent
    ensures k !in f.overrides ==> f.overrides - {k} == f.overrides
    ensures k !in f.index ==> f.index - {k} == f.index
    ensures Unpaired(Pop(k), View(f, load, dequant), f.pairs) == if k in f.index then f.pairs - {k} else f.pairs
    ensures Revealed(Pop(k), View(f, load, dequant), f.pairs) == if k in f.index && k in f.pairs then {f.pairs[k]} else {}
    ensures f.hidden - {} == f.hidden && (k !in f.pairs ==> f.pairs - {k} == f.pairs)
  {
  }

  /** A stored tensor as the client sees it: decoded with a scale of its name if it is an FP8 weight
      that has one, and as stored otherwise. */
  ghost predicate Opened<V>(k: string, v: V, index: map<string, Meta>, load: Meta -> V, dequant: (Meta, Meta) -> V)
    requires k in index
  {
    if index[k].fp8Weight && exists s <- index :: WeightOf(s) == Some(k)
    then exists s <- index :: WeightOf(s) == Some(k) && v == dequant(index[k], index[s])
    else v == load(index[k])
  }

  /** The pairing a freshly opened dictionary has. */
  ghost predicate Paired(index: map<string, Meta>, pairs: map<string, string>) {
    && (forall w <- index :: index[w].fp8Weight && (exists k <- index :: WeightOf(k) == Some(w)) ==> w in pairs)
    && forall w <- pairs :: pairs[w] in index && WeightOf(pairs[w]) == Some(w) && Scales(pairs[w], index)
  }

  function Scaled(pairs: map<string, string>): set<string> { set w <- pairs :: pairs[w] }

  /** A fresh dictionary shows every stored tensor but the scales in use, and each one decoded. */
  lemma FreshView<V>(index: map<string, Meta>, pairs: map<string, string>, load: Meta -> V, dequant: (Meta, Meta) -> V)
    requires Paired(index, pairs)
    ensures var f := Fields(index, pairs, Scaled(pairs), map[]);
      && Good(f) && View(f, load, dequant).Keys == index.Keys - Scaled(pairs)
      && forall k <- View(f, load, dequant) :: Opened(k, View(f, load, dequant)[k], index, load, dequant)
  {
  }

  /** The elements of a set in some order, each once. */
  method ListOf(s: set<string>) returns (ks: seq<string>)
    ensures forall k :: k in ks <==> k in s
    ensures |ks| == |s|
  {
    ks := [];
    var todo := s;
    while todo != {}
      invariant todo <= s && (forall k :: k in ks <==> k in s && k !in todo) && |ks| == |s| - |todo|
    {
      var k :| k in todo;
      todo := todo - {k};
      ks := ks + [k];
    }
  }

  /** _discover_fp8_pairs: the first scale found for a weight is the one that is used. */
  method PairUp(index: map<string, Meta>) returns (found: map<string, string>)
    ensures Paired(index, found)
  {
    found := map[];
    var todo := index.Keys;
    while todo != {}
      invariant todo <= index.Keys
      invariant forall w <- found :: found[w] in index && found[w] !in todo && Scales(found[w], index) && WeightOf(found[w]) == Some(w)
      invariant forall k <- index :: k !in todo && Scales(k, index) ==> WeightOf(k).value in found
    {
      var k :| k in todo;
      todo := todo - {k};
      if Scales(k, index) && WeightOf(k).value !in found {
        found := found[WeightOf(k).value := k];
      }
    }
  }

  class LazyTensorIndex<V(==)> {
    const load: Meta -> V
    const dequant: (Meta, Meta) -> V
    var index: map<string, Meta>
    var pairs: map<string, string>
    var hidden: set<string>
    var overrides: map<string, V>

    ghost predicate Valid()
      reads this
    {
      Good(Fields(index, pairs, hidden, overrides))
    }

    ghost function Abs(): map<string, V>
      requires Valid()
      reads this
    {
      View(Fields(index, pairs, hidden, overrides), load, dequant)
    }

    /** Opening the files and pairing weights with scales, in some order of the keys. */
    constructor (index: map<string, Meta>, load: Meta -> V, dequant: (Meta, Meta) -> V)
      ensures Valid() && this.load == load && this.dequant == dequant
      ensures forall s <- hidden :: s in index && Scales(s, index)
      ensures Abs().Keys == index.Keys - hidden
      ensures forall k <- Abs() :: Opened(k, Abs()[k], index, load, dequant)
    {
      var found := PairUp(index);
      this.index, this.load, this.dequant := index, load, dequant;
      pairs, hidden, overrides := found, Scaled(found), map[];
      FreshView(index, found, load, dequant);
    }

    predicate IsVisible(k: string)
      reads this
    {
      k !in hidden
    }

    predicate Contains(k: string)
      requires Valid()
      reads this
      ensures Contains(k) <==> k in Abs()
    {
      (k in index && IsVisible(k)) || k in overrides
    }

    /** __len__ counts the visible index keys and the overrides. */
    method Length() returns (n: nat)
      requires Valid()
      ensures n == |Abs()|
    {
      var visible := set k | k in index && IsVisible(k);
      n := |visible| + |overrides|;
      assert Abs().Keys == visible + overrides.Keys;
      assert visible !! overrides.Keys;
      assert |Abs().Keys| == |Abs()| && |overrides.Keys| == |overrides|;
    }

    /** __iter__ and keys: every key once. */
    method Keys() returns (ks: seq<string>)
      requires Valid()
      ensures forall k :: k in ks <==> k in Abs()
      ensures |ks| == |Abs()|
    {
      var visible := set k | k in index && IsVisible(k);
      var base := ListOf(visible);
      var extra := ListOf(set k | k in overrides && k !in index);
      ks := base + extra;
      assert (set k | k in overrides && k !in index) == overrides.Keys;
      assert Abs().Keys == visible + overrides.Keys;
      assert visible !! overrides.Keys;
      assert |Abs().Keys| == |Abs()|;
    }

    /** A hidden key that a lookup nevertheless decodes. */
    predicate Leaks(k: string)
      reads this
    {
      k in hidden && k in index && (k in pairs ==> pairs[k] in index)
    }

    /** __getitem__; Absent stands for KeyError. It does not test visibility, so that it answers like
        the map except for a stored hidden scale. */
    method Lookup(k: string) returns (r: Outcome<V>)
      requires Valid()
      ensures r == Answer(Abs(), Get(k)) <==> !Leaks(k)
    {
      if k in overrides { return Found(overrides[k]); }
      if k !in index { return Absent; }
      if k in pairs {
        if pairs[k] !in index { return Absent; }
        return Found(dequant(index[k], index[pairs[k]]));
      }
      return Found(load(index[k]));
    }

    /** items: the dictionary as one map. */
    method Items() returns (m: map<string, V>)
      requires Valid()
      ensures m == Abs()
    {
      var visible := map k | k in index && IsVisible(k) ::
        if k in pairs then dequant(index[k], index[pairs[k]]) else load(index[k]);
      m := visible + overrides;
    }

    method Assign(k: string, v: V)
      requires Valid() && k !in hidden
      modifies this
      ensures Valid() && Abs() == old(Abs())[k := v] && hidden == old(hidden) && pairs == old(pairs) - {k}
    {
      AssignedView(Fields(index, pairs, hidden, overrides), k, v, load, dequant);
      hide Good, View;
      overrides := overrides[k := v];
      index := index - {k};
      pairs := pairs - {k};
    }

    method Remove(k: string)
      requires Valid() && k !in hidden
      modifies this
      ensures Valid() && Abs() == old(Abs()) - {k} && pairs == old(pairs) - {k}
      ensures hidden == old(hidden) - Revealed(Delete(k), old(Abs()), old(pairs))
    {
      ghost var before := Fields(index, pairs, hidden, overrides);
      if k in pairs { UnpairedView(before, k, load, dequant); } else { RemovedView(before, k, load, dequant); }
      hide Good, View;
      if k in pairs {
        var scale := pairs[k];
        pairs := pairs - {k};
        hidden := hidden - {scale};
        index := index - {scale};
      }
      index := index - {k};
      overrides := overrides - {k};
    }

    /** pop; Absent stands for KeyError or the default. */
    method Take(k: string) returns (r: Outcome<V>)
      requires Valid() && k !in hidden
      modifies this
      ensures Valid() && Abs() == old(Abs()) - {k} && pairs == Unpaired(Pop(k), old(Abs()), old(pairs))
      ensures hidden == old(hidden) - Revealed(Pop(k), old(Abs()), old(pairs))
      ensures r == Answer(old(Abs()), Pop(k))
    {
      ghost var before := Fields(index, pairs, hidden, overrides);
      Elsewhere(before, k, load, dequant);
      if k in pairs { UnpairedView(before, k, load, dequant); } else { RemovedView(before, k, load, dequant); }
      hide Good, View, Answer, Revealed, Unpaired;
      if k in overrides {
        r := Found(overrides[k]);
        overrides := overrides - {k};
      } else if k !in index {
        r := Absent;
      } else if k in pairs {
        r := Found(dequant(index[k], index[pairs[k]]));
        var scale := pairs[k];
        pairs := pairs - {k};
        hidden := hidden - {scale};
        index := index - {k};
        index := index - {scale};
        assert index == before.index - {scale} - {k};
      } else {
        r := Found(load(index[k]));
        index := index - {k};
      }
    }

    method UpdateAll(entries: seq<(string, V)>)
      requires Valid() && forall i :: 0 <= i < |entries| ==> entries[i].0 !in hidden
      modifies this
      ensures Valid() && Abs() == PutAll(old(Abs()), entries) && hidden == old(hidden)
      ensures pairs == old(pairs) - set i | 0 <= i < |entries| :: entries[i].0
    {
      for i := 0 to |entries|
        invariant Valid() && hidden == old(hidden)
        invariant pairs == old(pairs) - set j | 0 <= j < i :: entries[j].0
        invariant PutAll(Abs(), entries[i..]) == PutAll(old(Abs()), entries)
      {
        assert entries[i..][1..] == entries[i + 1..];
        Assign(entries[i].0, entries[i].1);
      }
    }
  }

  method Perform<V(==)>(lazy: LazyTensorIndex<V>, op: Op<V>) returns (r: Outcome<V>)
    requires lazy.Valid() && Named(op) !! lazy.hidden
    modifies lazy
    ensures lazy.Valid() && lazy.hidden == old(lazy.hidden) - Revealed(op, old(lazy.Abs()), old(lazy.pairs))
    ensures lazy.pairs == Unpaired(op, old(lazy.Abs()), old(lazy.pairs))
    ensures r == Answer(old(lazy.Abs()), op) && lazy.Abs() == Next(old(lazy.Abs()), op)
  {
    hide Good, View;
    r := Done;
    if op.Get? {
      r := lazy.Lookup(op.key);
    } else if op.Has? {
      r := if lazy.Contains(op.key) then Yes else No;
    } else if op.Size? {
      var n := lazy.Length();
      r := Count(n);
    } else if op.Put? {
      lazy.Assign(op.key, op.value);
    } else if op.Delete? {
      lazy.Remove(op.key);
    } else if op.Pop? {
      r := lazy.Take(op.key);
    } else {
      lazy.UpdateAll(op.entries);
    }
  }

  /** Any sequence of client operations that names no scale key while it is hidden gets the answers a plain
      map would give, and leaves the dictionary a plain map would hold. */
  method Use<V(==)>(lazy: LazyTensorIndex<V>, ops: seq<Op<V>>) returns (answers: seq<Outcome<V>>)
    requires lazy.Valid()
    requires Discreet(ops, lazy.Abs(), lazy.pairs, lazy.hidden)
    modifies lazy
    ensures lazy.Valid()
    ensures answers == Answers(old(lazy.Abs()), ops)
    ensures lazy.Abs() == Finally(old(lazy.Abs()), ops)
  {
    answers := [];
    hide Good, View, Answer, Next, Named, Revealed, Unpaired;
    for i := 0 to |ops|
      invariant lazy.Valid() && Discreet(ops[i..], lazy.Abs(), lazy.pairs, lazy.hidden)
      invariant answers + Answers(lazy.Abs(), ops[i..]) == Answers(old(lazy.Abs()), ops)
      invariant Finally(lazy.Abs(), ops[i..]) == Finally(old(lazy.Abs()), ops)
    {
      ghost var before := lazy.Abs();
      OneStep(before, ops, i);
      var answer := Perform(lazy, ops[i]);
      answers := answers + [answer];
    }
  }

  lemma OneStep<V>(m: map<string, V>, ops: seq<Op<V>>, i: nat)
    requires i < |ops|
    ensures Answers(m, ops[i..]) == [Answer(m, ops[i])] + Answers(Next(m, ops[i]), ops[i + 1..])
    ensures Finally(m, ops[i..]) == Finally(Next(m, ops[i]), ops[i + 1..])
  {
    assert ops[i..][1..] == ops[i + 1..];
  }
}
