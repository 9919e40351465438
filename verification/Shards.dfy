/** The shard writer (omlx/oq.py, the output loop of quantize_oq_streaming): tensors are collected
    in order, written out when a shard has grown to the limit, and the files are renamed at the end.
    The output directory starts empty. */
module Shards {
  import opened Common

  const MAX_SHARD_BYTES: nat := 5_000_000_000

  // ---------- file names ----------

  const DIGITS := "0123456789"

  function Decimal(n: nat): string {
    if n < 10 then [DIGITS[n]] else Decimal(n / 10) + [DIGITS[n % 10]]
  }

  function Zeros(n: nat): string { seq(n, i => '0') }

  /** The format :05d. */
  function Five(n: nat): string {
    if |Decimal(n)| < 5 then Zeros(5 - |Decimal(n)|) + Decimal(n) else Decimal(n)
  }

  const SUFFIX := ".safetensors"
  const ONLY := "model.safetensors"

  function ShardName(number: string, total: string): string { "model-" + number + ("-of-" + total + SUFFIX) }

  function Placeholder(i: nat): string { ShardName(Five(i + 1), "PLACEHOLDER") }

  function Final(i: nat, total: nat): string { ShardName(Five(i + 1), Five(total)) }

  function Value(s: string): int {
    if s == "" then 0 else 10 * Value(s[..|s| - 1]) + s[|s| - 1] as int - '0' as int
  }

  lemma {:induction false} ValueOfZeros(n: nat, s: string)
    ensures Value(Zeros(n) + s) == Value(s)
    decreases n + |s|
  {
    var t := Zeros(n) + s;
    if |s| > 0 {
      ValueOfZeros(n, s[..|s| - 1]);
      assert t[..|t| - 1] == Zeros(n) + s[..|s| - 1];
    } else if n > 0 {
      ValueOfZeros(n - 1, s);
      assert t[..|t| - 1] == Zeros(n - 1) + s;
    }
  }

  lemma {:induction false} ValueOfDecimal(n: nat)
    ensures Value(Decimal(n)) == n && Decimal(n) != "" && Decimal(n)[|Decimal(n)| - 1] in DIGITS
  {
    if n < 10 {
      assert Decimal(n)[..0] == "";
    } else {
      ValueOfDecimal(n / 10);
      assert Decimal(n)[..|Decimal(n)| - 1] == Decimal(n / 10);
    }
  }

  lemma FiveIsInjective(m: nat, n: nat)
    ensures Five(m) == Five(n) ==> m == n
  {
    ValueOfDecimal(m);
    ValueOfDecimal(n);
    ValueOfZeros(if |Decimal(m)| < 5 then 5 - |Decimal(m)| else 0, Decimal(m));
    ValueOfZeros(if |Decimal(n)| < 5 then 5 - |Decimal(n)| else 0, Decimal(n));
    hide Decimal, Value;
    if |Decimal(m)| >= 5 { assert Zeros(0) + Decimal(m) == Decimal(m); }
    if |Decimal(n)| >= 5 { assert Zeros(0) + Decimal(n) == Decimal(n); }
  }

  /** A number is written out in decimal, with leading zeros up to five digits. */
  lemma FiveReads(n: nat)
    ensures Value(Five(n)) == n && |Five(n)| >= 5
    ensures |Five(n)| > 5 ==> Five(n)[0] != '0'
  {
    ValueOfDecimal(n);
    ValueOfZeros(if |Decimal(n)| < 5 then 5 - |Decimal(n)| else 0, Decimal(n));
    NoLeadingZero(n);
    hide Decimal, Value;
  }

  lemma {:induction false} NoLeadingZero(n: nat)
    ensures n > 0 ==> Decimal(n)[0] != '0'
    ensures n < 10 ==> |Decimal(n)| == 1
  {
    if n >= 10 { NoLeadingZero(n / 10); }
  }

  lemma SameNumber(x: string, y: string, total: string)
    requires ShardName(x, total) == ShardName(y, total)
    ensures x == y
  {
    var tail := "-of-" + total + SUFFIX;
    assert |ShardName(x, total)| == 6 + |x| + |tail| && |ShardName(y, total)| == 6 + |y| + |tail|;
    assert x == ShardName(x, total)[6..6 + |x|] && y == ShardName(y, total)[6..6 + |y|];
  }

  lemma LastOfTotal(x: string, total: string)
    requires total != ""
    ensures |ShardName(x, total)| > 13 && ShardName(x, total)[|ShardName(x, total)| - 13] == total[|total| - 1]
    ensures ShardName(x, total)[5] == '-'
  {
  }

  /** No two of the names a run may use are equal. */
  lemma NamesDiffer(i: nat, j: nat, total: nat)
    ensures Placeholder(i) == Placeholder(j) ==> i == j
    ensures Final(i, total) == Final(j, total) ==> i == j
    ensures Placeholder(i) != Final(j, total)
  {
    FiveIsInjective(i + 1, j + 1);
    var x, y := Five(i + 1), Five(j + 1);
    if Placeholder(i) == Placeholder(j) { SameNumber(x, y, "PLACEHOLDER"); }
    if Final(i, total) == Final(j, total) { SameNumber(x, y, Five(total)); }
    FiveEndsInDigit(total);
    LastOfTotal(x, "PLACEHOLDER");
    LastOfTotal(y, Five(total));
    hide Five, ShardName;
    assert 'R' !in DIGITS;
  }

  lemma NotOnly(i: nat)
    ensures Placeholder(i) != ONLY
  {
    LastOfTotal(Five(i + 1), "PLACEHOLDER");
    hide Five, ShardName;
    assert ONLY[5] == '.';
  }

  lemma FiveEndsInDigit(n: nat)
    ensures Five(n) != "" && Five(n)[|Five(n)| - 1] in DIGITS
  {
    ValueOfDecimal(n);
  }

  // ---------- what is written ----------

  datatype Array = Array(id: int, bytes: nat)

  /** A tensor after quantisation or casting; the quantiser may return no biases. */
  datatype Form = Cast(data: Array) | Quantised(weights: Array, scales: Array, biases: Option<Array>)

  datatype Tensor = Tensor(name: string, vision: bool, audio: bool, mtp: bool, form: Form)

  datatype Entry = Entry(key: string, data: Array)

  predicate Kept(t: Tensor, textOnly: bool, preserveMtp: bool) {
    !(textOnly && (t.vision || t.audio)) && (preserveMtp || !t.mtp)
  }

  function AllKept(ts: seq<Tensor>, textOnly: bool, preserveMtp: bool): seq<Tensor> {
    if ts == [] then []
    else
      var front, last := ts[..|ts| - 1], ts[|ts| - 1];
      AllKept(front, textOnly, preserveMtp) + (if Kept(last, textOnly, preserveMtp) then [last] else [])
  }

  function Entries(t: Tensor): seq<Entry> {
    match t.form
    case Cast(data) => [Entry(t.name, data)]
    case Quantised(weights, scales, biases) =>
      var base := if EndsWith(t.name, ".weight") then t.name[..|t.name| - 7] else t.name;
      [Entry(base + ".weight", weights), Entry(base + ".scales", scales)]
      + (if biases.Some? then [Entry(base + ".biases", biases.value)] else [])
  }

  predicate HasKey(shard: seq<Entry>, key: string) { exists e <- shard :: e.key == key }

  /** Assigning a dictionary key: an old key keeps its place. */
  function Put(shard: seq<Entry>, e: Entry): seq<Entry> {
    if shard == [] then [e]
    else if shard[0].key == e.key then [e] + shard[1..]
    else [shard[0]] + Put(shard[1..], e)
  }

  function PutAll(shard: seq<Entry>, es: seq<Entry>): seq<Entry>
    decreases |es|
  {
    if es == [] then shard else PutAll(Put(shard, es[0]), es[1..])
  }

  /** The dictionary that holds the arrays of these tensors. */
  function Filled(group: seq<Tensor>): seq<Entry> {
    if group == [] then [] else PutAll(Filled(group[..|group| - 1]), Entries(group[|group| - 1]))
  }

  function Bytes(shard: seq<Entry>): nat {
    if shard == [] then 0 else shard[0].data.bytes + Bytes(shard[1..])
  }

  /** A shard is written as soon as it has grown to the limit. */
  predicate Full(group: seq<Tensor>) { Bytes(Filled(group)) >= MAX_SHARD_BYTES }

  /** No proper part of the group had reached the limit. */
  predicate Tight(group: seq<Tensor>) { forall n :: 0 < n < |group| ==> !Full(group[..n]) }

  /** The groups are the tensors in order, cut exactly where a shard first reached the limit. */
  predicate Packing(groups: seq<seq<Tensor>>, ts: seq<Tensor>) {
    && Flat(groups) == ts
    && (forall i :: 0 <= i < |groups| ==> groups[i] != [] && Tight(groups[i]))
    && forall i :: 0 <= i < |groups| - 1 ==> Full(groups[i])
  }

  lemma PackingTail(g: seq<seq<Tensor>>, ts: seq<Tensor>)
    requires g != [] && Packing(g, ts)
    ensures g[0] != [] && |g[0]| <= |ts| && g[0] == ts[..|g[0]|]
    ensures Packing(g[1..], ts[|g[0]|..])
    ensures |g| == 1 ==> g[0] == ts
  {
    FlatFront(g);
    if |g| == 1 { assert Flat(g[1..]) == []; }
  }

  /** A first group cannot end before another packing's first group does. */
  lemma FirstCut(g: seq<seq<Tensor>>, h: seq<seq<Tensor>>, ts: seq<Tensor>)
    requires g != [] && h != [] && Packing(g, ts) && Packing(h, ts)
    ensures |g[0]| >= |h[0]|
  {
    PackingTail(g, ts);
    PackingTail(h, ts);
    forall n | 0 < n < |h[0]| ensures !Full(ts[..n]) { assert ts[..n] == h[0][..n]; }
  }

  /** Where a tensor goes is determined: there is only one packing. */
  lemma {:induction false} PackingIsUnique(g: seq<seq<Tensor>>, h: seq<seq<Tensor>>, ts: seq<Tensor>)
    requires Packing(g, ts) && Packing(h, ts)
    ensures g == h
  {
    if g != [] { PackingTail(g, ts); }
    if h != [] { PackingTail(h, ts); }
    if g != [] && h != [] {
      FirstCut(g, h, ts);
      FirstCut(h, g, ts);
      hide Packing;
      PackingIsUnique(g[1..], h[1..], ts[|g[0]|..]);
      assert g == [g[0]] + g[1..] && h == [h[0]] + h[1..];
    }
  }

  // ---------- names and places ----------

  /** How the files are named: a single file, or with the first few already renamed. */
  datatype Naming = Single | Renamed(done: nat, total: nat)

  function NameAt(naming: Naming, i: nat): string {
    if naming.Single? then ONLY
    else if i < naming.done then Final(i, naming.total)
    else Placeholder(i)
  }

  const TEMPORARY := Renamed(0, 0)

  function Names(naming: Naming, total: nat): set<string> { set i | 0 <= i < total :: NameAt(naming, i) }

  /** The files are exactly the shards under their names. */
  ghost predicate Held(files: map<string, seq<Entry>>, shards: seq<seq<Entry>>, naming: Naming) {
    && files.Keys == Names(naming, |shards|)
    && forall i :: 0 <= i < |shards| ==> NameAt(naming, i) in files && files[NameAt(naming, i)] == shards[i]
  }

  /** The last shard with this key, or -1. */
  function LastWith(shards: seq<seq<Entry>>, key: string): (i: int)
    ensures -1 <= i < |shards|
  {
    if shards == [] then -1
    else if HasKey(shards[|shards| - 1], key) then |shards| - 1
    else LastWith(shards[..|shards| - 1], key)
  }

  /** The weight map sends each key to the name of the last shard holding it. */
  ghost predicate Located(where: map<string, string>, shards: seq<seq<Entry>>, naming: Naming) {
    && (forall key :: key in where <==> LastWith(shards, key) >= 0)
    && forall key <- where :: LastWith(shards, key) >= 0 && where[key] == NameAt(naming, LastWith(shards, key))
  }

  function ShardsOf(groups: seq<seq<Tensor>>): (s: seq<seq<Entry>>)
    ensures |s| == |groups| && forall i :: 0 <= i < |groups| ==> s[i] == Filled(groups[i])
  {
    seq(|groups|, i requires 0 <= i < |groups| => Filled(groups[i]))
  }

  // ---------- the loop ----------

  lemma FileAdded(files: map<string, seq<Entry>>, shards: seq<seq<Entry>>, shard: seq<Entry>, file: string, naming: Naming)
    requires Held(files, shards, naming) && file == NameAt(naming, |shards|) && file !in files
    ensures Held(files[file := shard], shards + [shard], naming)
  {
    hide NameAt;
    var more := shards + [shard];
    forall i | 0 <= i < |more| ensures NameAt(naming, i) in files[file := shard] && files[file := shard][NameAt(naming, i)] == more[i] {
      if i < |shards| { assert NameAt(naming, i) in files; }
    }
    assert files[file := shard].Keys == files.Keys + {file};
  }

  lemma PlaceAdded(where: map<string, string>, shards: seq<seq<Entry>>, shard: seq<Entry>, file: string, naming: Naming)
    requires Located(where, shards, naming) && file == NameAt(naming, |shards|)
    ensures Located(where + PlacedIn(shard, file), shards + [shard], naming)
  {
    hide NameAt, HasKey;
    assert (shards + [shard])[..|shards|] == shards;
  }

  /** for k in out_shard_data: weight_map[k] = shard_name */
  function PlacedIn(shard: seq<Entry>, file: string): (m: map<string, string>)
    ensures forall key :: key in m <==> HasKey(shard, key)
    ensures forall key <- m :: m[key] == file
  {
    map e <- shard :: e.key := file
  }

  lemma NeverEmpty(group: seq<Tensor>)
    ensures Filled(group) == [] <==> group == []
  {
    if group != [] { PutAllKeeps(Filled(group[..|group| - 1]), Entries(group[|group| - 1])); }
  }

  lemma {:induction false} PutAllKeeps(shard: seq<Entry>, es: seq<Entry>)
    ensures shard != [] || es != [] ==> PutAll(shard, es) != []
    decreases |es|
  {
    if es != [] { PutAllKeeps(Put(shard, es[0]), es[1..]); }
  }

  /** Only closed groups are on disk, and the open one has not reached the limit. */
  ghost predicate Underway(closed: seq<seq<Tensor>>, group: seq<Tensor>, ts: seq<Tensor>) {
    && Flat(closed) + group == ts && Tight(group) && !Full(group)
    && forall i :: 0 <= i < |closed| ==> closed[i] != [] && Tight(closed[i]) && Full(closed[i])
  }

  lemma FilledMore(group: seq<Tensor>, t: Tensor)
    ensures Filled(group + [t]) == PutAll(Filled(group), Entries(t))
    ensures Full(group + [t]) <==> Bytes(PutAll(Filled(group), Entries(t))) >= MAX_SHARD_BYTES
    ensures Filled([]) == []
  {
    assert (group + [t])[..|group|] == group;
  }

  lemma TightMore(group: seq<Tensor>, t: Tensor)
    requires Tight(group) && !Full(group)
    ensures Tight(group + [t])
    ensures Tight([]) && !Full([])
  {
    assert !Full([]);
    hide Full;
    var more := group + [t];
    forall n | 0 < n < |more| ensures !Full(more[..n]) { assert more[..n] == group[..n] && group[..|group|] == group; }
  }

  lemma OneMore(closed: seq<seq<Tensor>>, group: seq<Tensor>, ts: seq<Tensor>, t: Tensor)
    requires Underway(closed, group, ts)
    ensures Full(group + [t]) ==> Underway(closed + [group + [t]], [], ts + [t])
    ensures !Full(group + [t]) ==> Underway(closed, group + [t], ts + [t])
  {
    TightMore(group, t);
    hide Full, Flat, Tight;
    var more := group + [t];
    assert Flat(closed) + more == ts + [t];
    if Full(more) {
      FlatAppend(closed, more);
      var now := closed + [more];
      assert Flat(now) + [] == ts + [t];
      forall i | 0 <= i < |now| ensures now[i] != [] && Tight(now[i]) && Full(now[i]) {
        if i < |closed| { assert now[i] == closed[i]; }
      }
    }
  }

  /** The groups written so far, and the tensors collected since. */
  datatype Progress = Progress(closed: seq<seq<Tensor>>, group: seq<Tensor>)

  function Cutting(ts: seq<Tensor>): Progress {
    if ts == [] then Progress([], [])
    else
      var p := Cutting(ts[..|ts| - 1]);
      var more := p.group + [ts[|ts| - 1]];
      if Full(more) then Progress(p.closed + [more], []) else Progress(p.closed, more)
  }

  function Groups(ts: seq<Tensor>): seq<seq<Tensor>> {
    var p := Cutting(ts);
    if p.group == [] then p.closed else p.closed + [p.group]
  }

  lemma {:induction false} CuttingIsUnderway(ts: seq<Tensor>)
    ensures Underway(Cutting(ts).closed, Cutting(ts).group, ts)
  {
    hide Underway, Cutting;
    if ts == [] {
      CuttingStarts();
    } else {
      CuttingIsUnderway(ts[..|ts| - 1]);
      CuttingGoesOn(ts);
    }
  }

  lemma CuttingStarts()
    ensures Underway(Cutting([]).closed, Cutting([]).group, [])
  {
    assert Bytes(Filled([])) == 0;
  }

  lemma CuttingGoesOn(ts: seq<Tensor>)
    requires ts != [] && var p := Cutting(ts[..|ts| - 1]); Underway(p.closed, p.group, ts[..|ts| - 1])
    ensures Underway(Cutting(ts).closed, Cutting(ts).group, ts)
  {
    hide Underway, Full, Cutting;
    CuttingNext(ts);
    LastApart(ts);
    OneMore(Cutting(ts[..|ts| - 1]).closed, Cutting(ts[..|ts| - 1]).group, ts[..|ts| - 1], ts[|ts| - 1]);
  }

  lemma CuttingNext(ts: seq<Tensor>)
    requires ts != []
    ensures var p := Cutting(ts[..|ts| - 1]);
      var more := p.group + [ts[|ts| - 1]];
      Cutting(ts) == if Full(more) then Progress(p.closed + [more], []) else Progress(p.closed, more)
  {
    hide Full;
  }

  lemma Finished(closed: seq<seq<Tensor>>, group: seq<Tensor>, ts: seq<Tensor>)
    requires Underway(closed, group, ts)
    ensures Packing(if group == [] then closed else closed + [group], ts)
  {
    FlatAppend(closed, group);
  }

  /** Cutting as one goes is the one packing there is. */
  lemma GroupsAreThePacking(g: seq<seq<Tensor>>, ts: seq<Tensor>)
    ensures Packing(g, ts) <==> g == Groups(ts)
  {
    CuttingIsUnderway(ts);
    Finished(Cutting(ts).closed, Cutting(ts).group, ts);
    assert Packing(Groups(ts), ts);
    hide *;
    if Packing(g, ts) { PackingIsUnique(g, Groups(ts), ts); }
  }

  ghost predicate Stored(files: map<string, seq<Entry>>, where: map<string, string>, groups: seq<seq<Tensor>>, naming: Naming) {
    Held(files, ShardsOf(groups), naming) && Located(where, ShardsOf(groups), naming)
  }

  lemma Unused(files: map<string, seq<Entry>>, shards: seq<seq<Entry>>, file: string, naming: Naming)
    requires Held(files, shards, naming) && forall i :: 0 <= i < |shards| ==> NameAt(naming, i) != file
    ensures file !in files
  {
    assert file in files ==> file in files.Keys;
  }

  lemma GroupStored(files: map<string, seq<Entry>>, where: map<string, string>, groups: seq<seq<Tensor>>,
                    group: seq<Tensor>, file: string, naming: Naming)
    requires Stored(files, where, groups, naming) && file == NameAt(naming, |groups|)
    requires forall i :: 0 <= i < |groups| ==> NameAt(naming, i) != file
    ensures Stored(files[file := Filled(group)], where + PlacedIn(Filled(group), file), groups + [group], naming)
  {
    hide Held, Located, Filled, PlacedIn;
    Unused(files, ShardsOf(groups), file, naming);
    FileAdded(files, ShardsOf(groups), Filled(group), file, naming);
    PlaceAdded(where, ShardsOf(groups), Filled(group), file, naming);
    assert ShardsOf(groups + [group]) == ShardsOf(groups) + [Filled(group)];
  }

  lemma NextTemporary(count: nat)
    ensures NameAt(TEMPORARY, count) == Placeholder(count)
    ensures forall i :: 0 <= i < count ==> NameAt(TEMPORARY, i) != Placeholder(count)
  {
    forall i | 0 <= i < count ensures Placeholder(i) != Placeholder(count) { NamesDiffer(i, count, 0); }
  }

  /** What is on disk and in hand once these tensors have been taken. */
  ghost predicate Written(files: map<string, seq<Entry>>, where: map<string, string>, count: nat, shard: seq<Entry>,
                          ts: seq<Tensor>) {
    && shard == Filled(Cutting(ts).group) && count == |Cutting(ts).closed|
    && Stored(files, where, Cutting(ts).closed, TEMPORARY)
  }

  lemma OneTaken(files: map<string, seq<Entry>>, where: map<string, string>, count: nat, shard: seq<Entry>,
                 ts: seq<Tensor>, t: Tensor)
    requires Written(files, where, count, shard, ts)
    ensures var more, name := PutAll(shard, Entries(t)), Placeholder(count);
      if Bytes(more) >= MAX_SHARD_BYTES
      then Written(files[name := more], where + PlacedIn(more, name), count + 1, [], ts + [t])
      else Written(files, where, count, more, ts + [t])
  {
    var closed, group := Cutting(ts).closed, Cutting(ts).group;
    CuttingStep(ts, t, closed, group);
    FilledMore(group, t);
    NextTemporary(count);
    hide Cutting, Full, PutAll, Entries, Placeholder, PlacedIn, Filled, Stored, NameAt, Bytes;
    if Full(group + [t]) { GroupStored(files, where, closed, group + [t], Placeholder(count), TEMPORARY); }
  }

  /** The main loop: take the tensors in order, and write a shard whenever the limit is reached. */
  method WriteFullShards(ts: seq<Tensor>, textOnly: bool, preserveMtp: bool)
    returns (files: map<string, seq<Entry>>, where: map<string, string>, count: nat, shard: seq<Entry>)
    ensures Written(files, where, count, shard, AllKept(ts, textOnly, preserveMtp))
  {
    files, where, shard, count := map[], map[], [], 0;
    assert ts[..0] == [] && Written(files, where, count, shard, AllKept([], textOnly, preserveMtp));
    hide *;
    for i := 0 to |ts|
      invariant Written(files, where, count, shard, AllKept(ts[..i], textOnly, preserveMtp))
    {
      var t := ts[i];
      KeptSoFar(ts, i, textOnly, preserveMtp);
      if !Kept(t, textOnly, preserveMtp) { continue; }
      OneTaken(files, where, count, shard, AllKept(ts[..i], textOnly, preserveMtp), t);
      shard := PutAll(shard, Entries(t));
      if Bytes(shard) >= MAX_SHARD_BYTES {
        var name := Placeholder(count);
        files, where := files[name := shard], where + PlacedIn(shard, name);
        shard, count := [], count + 1;
      }
    }
    assert ts[..|ts|] == ts;
  }

  lemma CuttingStep(ts: seq<Tensor>, t: Tensor, closed: seq<seq<Tensor>>, group: seq<Tensor>)
    requires Cutting(ts) == Progress(closed, group)
    ensures Full(group + [t]) ==> Cutting(ts + [t]) == Progress(closed + [group + [t]], [])
    ensures !Full(group + [t]) ==> Cutting(ts + [t]) == Progress(closed, group + [t])
  {
    assert (ts + [t])[..|ts|] == ts;
  }

  lemma KeptSoFar(ts: seq<Tensor>, i: nat, textOnly: bool, preserveMtp: bool)
    requires i < |ts|
    ensures var before, after := AllKept(ts[..i], textOnly, preserveMtp), AllKept(ts[..i + 1], textOnly, preserveMtp);
      after == if Kept(ts[i], textOnly, preserveMtp) then before + [ts[i]] else before
  {
    assert ts[..i + 1][..i] == ts[..i];
  }

  /** The name under which a shard is first written. */
  function FirstName(groups: seq<seq<Tensor>>): Naming {
    if |groups| == 1 && !Full(groups[0]) then Single else TEMPORARY
  }

  /** Names are only looked at below the number of shards. */
  lemma SameNames(files: map<string, seq<Entry>>, where: map<string, string>, groups: seq<seq<Tensor>>,
                  m: Naming, n: Naming)
    requires Stored(files, where, groups, m) && forall i :: 0 <= i < |groups| ==> NameAt(m, i) == NameAt(n, i)
    ensures Stored(files, where, groups, n)
  {
  }

  /** What is left over becomes the last shard; alone, it gets the plain name at once. */
  method WriteAll(ts: seq<Tensor>, textOnly: bool, preserveMtp: bool)
    returns (files: map<string, seq<Entry>>, where: map<string, string>, count: nat)
    ensures var groups := Groups(AllKept(ts, textOnly, preserveMtp));
      count == |groups| && Stored(files, where, groups, FirstName(groups))
  {
    var shard;
    files, where, count, shard := WriteFullShards(ts, textOnly, preserveMtp);
    ghost var kept := AllKept(ts, textOnly, preserveMtp);
    ghost var p, groups := Cutting(kept), Groups(kept);
    CuttingIsUnderway(kept);
    NeverEmpty(p.group);
    FirstNames(p.closed, p.group, kept);
    assert groups == if p.group == [] then p.closed else p.closed + [p.group];
    hide *;
    SameNames(files, where, p.closed, TEMPORARY, FirstName(groups));
    if shard != [] {
      var name := if count == 0 then ONLY else Placeholder(count);
      GroupStored(files, where, p.closed, p.group, name, FirstName(groups));
      files, where := files[name := shard], where + PlacedIn(shard, name);
      count := count + 1;
    }
  }

  lemma FirstNames(closed: seq<seq<Tensor>>, group: seq<Tensor>, ts: seq<Tensor>)
    requires Underway(closed, group, ts)
    ensures var naming, n := FirstName(if group == [] then closed else closed + [group]), |closed|;
      && (forall i :: 0 <= i < n ==> NameAt(naming, i) == NameAt(TEMPORARY, i))
      && (group != [] ==> NameAt(naming, n) == (if n == 0 then ONLY else Placeholder(n))
                          && forall i :: 0 <= i < n ==> NameAt(naming, i) != NameAt(naming, n))
  {
    NextTemporary(|closed|);
  }

  // ---------- renaming ----------

  /** Moving the value of one key to a new key, and every reference to it. */
  method RenameShards(files: map<string, seq<Entry>>, where: map<string, string>, count: nat, ghost groups: seq<seq<Tensor>>)
    returns (newFiles: map<string, seq<Entry>>, newWhere: map<string, string>)
    requires count == |groups| && Stored(files, where, groups, TEMPORARY)
    ensures Stored(newFiles, newWhere, groups, Renamed(count, count))
  {
    newFiles, newWhere := files, where;
    SameNames(files, where, groups, TEMPORARY, Renamed(0, count));
    for i := 0 to count
      invariant Stored(newFiles, newWhere, groups, Renamed(i, count))
    {
      var from, to := Placeholder(i), Final(i, count);
      OneRenamed(newFiles, newWhere, groups, i);
      if from in newFiles {
        newFiles := (newFiles - {from})[to := newFiles[from]];
        newWhere := Replaced(newWhere, from, to);
      }
    }
  }

  /** n is m with one name replaced by an unused one. */
  ghost predicate Replaces(m: Naming, n: Naming, i: nat, total: nat) {
    i < total && forall j :: 0 <= j < total && j != i ==> NameAt(m, j) == NameAt(n, j) && NameAt(m, j) != NameAt(m, i) && NameAt(m, j) != NameAt(n, i)
  }

  lemma NamesReplaced(m: Naming, n: Naming, i: nat, total: nat)
    requires Replaces(m, n, i, total)
    ensures Names(n, total) == Names(m, total) - {NameAt(m, i)} + {NameAt(n, i)}
  {
    hide NameAt;
    forall k | k in Names(n, total) ensures k in Names(m, total) - {NameAt(m, i)} + {NameAt(n, i)} {
      var j :| 0 <= j < total && NameAt(n, j) == k;
      if j != i { assert NameAt(m, j) == k; }
    }
    forall k | k in Names(m, total) - {NameAt(m, i)} ensures k in Names(n, total) {
      var j :| 0 <= j < total && NameAt(m, j) == k;
      assert NameAt(n, j) == k;
    }
    assert NameAt(n, i) in Names(n, total);
  }

  lemma HeldRenamed(files: map<string, seq<Entry>>, shards: seq<seq<Entry>>, m: Naming, n: Naming, i: nat)
    requires Replaces(m, n, i, |shards|) && Held(files, shards, m)
    ensures NameAt(m, i) in files && Held((files - {NameAt(m, i)})[NameAt(n, i) := files[NameAt(m, i)]], shards, n)
  {
    hide NameAt;
    NamesReplaced(m, n, i, |shards|);
    hide Names;
    var g := (files - {NameAt(m, i)})[NameAt(n, i) := files[NameAt(m, i)]];
    assert g.Keys == files.Keys - {NameAt(m, i)} + {NameAt(n, i)};
    forall j | 0 <= j < |shards| ensures NameAt(n, j) in g && g[NameAt(n, j)] == shards[j] {
      if j != i { assert NameAt(m, j) in files; }
    }
  }

  function Replaced(where: map<string, string>, from: string, to: string): map<string, string> {
    map k | k in where :: if where[k] == from then to else where[k]
  }

  lemma LocatedRenamed(where: map<string, string>, shards: seq<seq<Entry>>, m: Naming, n: Naming, i: nat)
    requires Replaces(m, n, i, |shards|) && Located(where, shards, m)
    ensures Located(Replaced(where, NameAt(m, i), NameAt(n, i)), shards, n)
  {
    hide NameAt;
    forall k | k in where
      ensures LastWith(shards, k) >= 0 && Replaced(where, NameAt(m, i), NameAt(n, i))[k] == NameAt(n, LastWith(shards, k))
    {
      assert where[k] == NameAt(m, LastWith(shards, k));
    }
  }

  lemma OneRenamed(files: map<string, seq<Entry>>, where: map<string, string>, groups: seq<seq<Tensor>>, i: nat)
    requires i < |groups| && Stored(files, where, groups, Renamed(i, |groups|))
    ensures var from, to := Placeholder(i), Final(i, |groups|);
      && from in files
      && Stored((files - {from})[to := files[from]], Replaced(where, from, to), groups, Renamed(i + 1, |groups|))
  {
    var m, n := Renamed(i, |groups|), Renamed(i + 1, |groups|);
    assert NameAt(m, i) == Placeholder(i) && NameAt(n, i) == Final(i, |groups|);
    forall j | 0 <= j < |groups| && j != i ensures NameAt(m, j) == NameAt(n, j) && NameAt(m, j) != NameAt(m, i) && NameAt(m, j) != NameAt(n, i) {
      NamesDiffer(i, j, |groups|);
      NamesDiffer(j, i, |groups|);
    }
    assert Replaces(m, n, i, |groups|);
    hide Replaces, Held, Located, Placeholder, Final, NameAt, LastWith, Filled, Replaced;
    HeldRenamed(files, ShardsOf(groups), m, n, i);
    LocatedRenamed(where, ShardsOf(groups), m, n, i);
  }

  // ---------- the whole run ----------

  /** The names in the end. */
  function LastName(groups: seq<seq<Tensor>>): Naming {
    if |groups| > 1 then Renamed(|groups|, |groups|) else FirstName(groups)
  }

  /** One file that reached the limit only with the very last tensor keeps its placeholder name. */
  predicate LeavesPlaceholder(ts: seq<Tensor>) { ts != [] && Full(ts) && Tight(ts) }

  lemma SingleFull(groups: seq<seq<Tensor>>, ts: seq<Tensor>)
    requires Packing(groups, ts)
    ensures |groups| == 1 && Full(groups[0]) <==> LeavesPlaceholder(ts)
    ensures groups == [] <==> ts == []
  {
    if groups != [] { PackingTail(groups, ts); }
    if LeavesPlaceholder(ts) {
      assert Flat([ts]) == Flat([]) + ts;
      PackingIsUnique(groups, [ts], ts);
    }
  }

  /** Every file is a group of the one packing under its final name, the weight map sends each key
      to the file that holds it, and a loader finds the weights, by the plain name or by the index,
      unless there are none or a placeholder name is left. */
  method WriteShards(ts: seq<Tensor>, textOnly: bool, preserveMtp: bool)
    returns (files: map<string, seq<Entry>>, where: map<string, string>, index: Option<map<string, string>>)
    ensures var groups := Groups(AllKept(ts, textOnly, preserveMtp));
      && Stored(files, where, groups, LastName(groups))
      && index == if |groups| > 1 then Some(where) else None
    ensures var kept := AllKept(ts, textOnly, preserveMtp);
      (index.Some? || ONLY in files <==> kept != [] && !LeavesPlaceholder(kept))
  {
    var count;
    files, where, count := WriteAll(ts, textOnly, preserveMtp);
    ghost var kept := AllKept(ts, textOnly, preserveMtp);
    ghost var groups := Groups(kept);
    GroupsAreThePacking(groups, kept);
    SingleFull(groups, kept);
    if count > 1 { files, where := RenameShards(files, where, count, groups); }
    index := if count > 1 then Some(where) else None;
    if count == 1 { NotOnly(0); }
    hide AllKept, LeavesPlaceholder, Packing, Located, Full, Placeholder, Groups;
    if count == 1 {
      assert files.Keys == Names(LastName(groups), 1);
      assert NameAt(LastName(groups), 0) in files;
    }
  }

  // ---------- distinct keys ----------

  function AllEntries(ts: seq<Tensor>): seq<Entry> {
    if ts == [] then [] else AllEntries(ts[..|ts| - 1]) + Entries(ts[|ts| - 1])
  }

  ghost predicate DistinctKeys(es: seq<Entry>) { forall i, j :: 0 <= i < j < |es| ==> es[i].key != es[j].key }

  lemma {:induction false} PutNew(shard: seq<Entry>, e: Entry)
    requires !HasKey(shard, e.key)
    ensures Put(shard, e) == shard + [e]
  {
    if shard != [] {
      assert shard[0] in shard;
      PutNew(shard[1..], e);
    }
  }

  lemma {:induction false} PutAllNew(shard: seq<Entry>, es: seq<Entry>)
    requires DistinctKeys(shard + es)
    ensures PutAll(shard, es) == shard + es
    decreases |es|
  {
    if es == [] {
      assert shard + es == shard;
    } else {
      assert forall i :: 0 <= i < |shard| ==> (shard + es)[i] == shard[i] && shard[i].key != (shard + es)[|shard|].key;
      PutNew(shard, es[0]);
      assert (shard + [es[0]]) + es[1..] == shard + es;
      PutAllNew(shard + [es[0]], es[1..]);
    }
  }

  lemma DistinctParts(a: seq<Entry>, b: seq<Entry>)
    requires DistinctKeys(a + b)
    ensures DistinctKeys(a) && DistinctKeys(b)
    ensures forall key :: HasKey(a, key) ==> !HasKey(b, key)
  {
    forall i, j | 0 <= i < j < |a| ensures a[i].key != a[j].key { assert (a + b)[i] == a[i] && (a + b)[j] == a[j]; }
    forall i, j | 0 <= i < j < |b| ensures b[i].key != b[j].key {
      assert (a + b)[|a| + i] == b[i] && (a + b)[|a| + j] == b[j];
    }
    forall i, j | 0 <= i < |a| && 0 <= j < |b| ensures a[i].key != b[j].key {
      assert (a + b)[i] == a[i] && (a + b)[|a| + j] == b[j];
    }
  }

  /** Nothing is overwritten while keys are distinct. */
  lemma {:induction false} FilledPlainly(ts: seq<Tensor>)
    requires DistinctKeys(AllEntries(ts))
    ensures Filled(ts) == AllEntries(ts)
  {
    if ts != [] {
      DistinctParts(AllEntries(ts[..|ts| - 1]), Entries(ts[|ts| - 1]));
      FilledPlainly(ts[..|ts| - 1]);
      PutAllNew(AllEntries(ts[..|ts| - 1]), Entries(ts[|ts| - 1]));
    }
  }

  lemma {:induction false} EntriesJoin(a: seq<Tensor>, b: seq<Tensor>)
    ensures AllEntries(a + b) == AllEntries(a) + AllEntries(b)
  {
    hide Entries;
    if b == [] {
      assert a + b == a;
    } else {
      assert (a + b)[..|a + b| - 1] == a + b[..|b| - 1];
      EntriesJoin(a, b[..|b| - 1]);
    }
  }

  lemma {:induction false} HasKeyInFlat(shards: seq<seq<Entry>>, i: nat, key: string)
    requires i < |shards| && HasKey(shards[i], key)
    ensures HasKey(Flat(shards), key)
  {
    FlatFront(shards);
    if i > 0 { HasKeyInFlat(shards[1..], i - 1, key); }
  }

  /** No key is in two shards. */
  ghost predicate KeysApart(groups: seq<seq<Tensor>>) {
    forall i, j, key | 0 <= i < |groups| && 0 <= j < |groups| && i != j ::
      HasKey(Filled(groups[i]), key) ==> !HasKey(Filled(groups[j]), key)
  }

  /** With distinct output keys, the shards laid end to end are all the arrays in source order, and
      no key is in two shards. */
  lemma {:induction false} EveryArrayOnce(groups: seq<seq<Tensor>>, ts: seq<Tensor>)
    requires Flat(groups) == ts && DistinctKeys(AllEntries(ts))
    ensures Flat(ShardsOf(groups)) == AllEntries(ts)
    ensures KeysApart(groups)
  {
    if groups != [] {
      var rest := groups[1..];
      FlatFront(groups);
      EntriesJoin(groups[0], Flat(rest));
      DistinctParts(AllEntries(groups[0]), AllEntries(Flat(rest)));
      FilledPlainly(groups[0]);
      EveryArrayOnce(rest, Flat(rest));
      FlatFront(ShardsOf(groups));
      assert ShardsOf(groups)[1..] == ShardsOf(rest);
      forall j, key | 0 < j < |groups| && HasKey(Filled(groups[j]), key) ensures !HasKey(Filled(groups[0]), key) {
        HasKeyInFlat(ShardsOf(rest), j - 1, key);
      }
    }
  }

  lemma {:induction false} BytesJoin(a: seq<Entry>, b: seq<Entry>)
    ensures Bytes(a + b) == Bytes(a) + Bytes(b)
  {
    if a == [] {
      assert a + b == b;
    } else {
      BytesJoin(a[1..], b);
      assert (a + b)[1..] == a[1..] + b;
    }
  }

  /** With distinct output keys, a run leaves a placeholder name exactly when all the arrays together
      reach the limit and those before the last tensor do not. */
  lemma {:induction false} PlaceholderByTotals(ts: seq<Tensor>)
    requires DistinctKeys(AllEntries(ts)) && ts != []
    ensures LeavesPlaceholder(ts) <==>
      Bytes(AllEntries(ts)) >= MAX_SHARD_BYTES && Bytes(AllEntries(ts[..|ts| - 1])) < MAX_SHARD_BYTES
  {
    forall n | 0 <= n <= |ts|
      ensures Full(ts[..n]) <==> Bytes(AllEntries(ts[..n])) >= MAX_SHARD_BYTES
      ensures n < |ts| ==> Bytes(AllEntries(ts[..n])) <= Bytes(AllEntries(ts[..|ts| - 1]))
    {
      assert ts == ts[..n] + ts[n..];
      EntriesJoin(ts[..n], ts[n..]);
      DistinctParts(AllEntries(ts[..n]), AllEntries(ts[n..]));
      FilledPlainly(ts[..n]);
      if n < |ts| {
        assert ts[..|ts| - 1] == ts[..n] + ts[n..|ts| - 1];
        EntriesJoin(ts[..n], ts[n..|ts| - 1]);
        BytesJoin(AllEntries(ts[..n]), AllEntries(ts[n..|ts| - 1]));
      }
    }
    assert ts[..|ts|] == ts;
    if |ts| == 1 { assert Bytes(AllEntries([])) == 0; }
  }

  lemma {:induction false} OnlyShardWith(shards: seq<seq<Entry>>, i: nat, key: string)
    requires i < |shards| && HasKey(shards[i], key)
    requires forall j :: 0 <= j < |shards| && j != i ==> !HasKey(shards[j], key)
    ensures LastWith(shards, key) == i
  {
    var front := shards[..|shards| - 1];
    if i < |front| { OnlyShardWith(front, i, key); }
  }

  lemma {:induction false} SomewhereInFlat(shards: seq<seq<Entry>>, e: Entry) returns (i: nat)
    requires e in Flat(shards)
    ensures i < |shards| && e in shards[i]
  {
    var front, last := shards[..|shards| - 1], shards[|shards| - 1];
    if e in last { i := |shards| - 1; } else { i := SomewhereInFlat(front, e); }
  }

  /** Reading the output back: with distinct output keys, the weight map leads from the key of every
      array that was produced to the one file that holds it, and it is there under its key. */
  lemma EveryArrayIsFound(files: map<string, seq<Entry>>, where: map<string, string>, groups: seq<seq<Tensor>>,
                          naming: Naming, e: Entry)
    requires Stored(files, where, groups, naming) && DistinctKeys(AllEntries(Flat(groups))) && e in AllEntries(Flat(groups))
    ensures e.key in where && where[e.key] in files && e in files[where[e.key]]
    ensures forall file <- files :: file != where[e.key] ==> !HasKey(files[file], e.key)
  {
    EveryArrayOnce(groups, Flat(groups));
    var shards := ShardsOf(groups);
    var i := SomewhereInFlat(shards, e);
    assert HasKey(Filled(groups[i]), e.key);
    hide AllEntries, Filled, Flat, NameAt, DistinctKeys, HasKey;
    OnlyShardWith(shards, i, e.key);
    OnlyFileWith(files, shards, naming, i, e.key);
  }

  lemma OnlyFileWith(files: map<string, seq<Entry>>, shards: seq<seq<Entry>>, naming: Naming, i: nat, key: string)
    requires Held(files, shards, naming) && i < |shards|
    requires forall j :: 0 <= j < |shards| && j != i ==> !HasKey(shards[j], key)
    ensures forall file <- files :: file != NameAt(naming, i) ==> !HasKey(files[file], key)
  {
    hide NameAt, HasKey;
    forall file | file in files && file != NameAt(naming, i) ensures !HasKey(files[file], key) {
      assert file in Names(naming, |shards|);
    }
  }

  // ---------- the size of shards ----------

  /** The bytes of some arrays, counted from the last one. */
  function Volume(es: seq<Entry>): nat { if es == [] then 0 else Volume(es[..|es| - 1]) + es[|es| - 1].data.bytes }

  lemma {:induction false} BytesAreVolume(es: seq<Entry>)
    ensures Bytes(es) == Volume(es)
  {
    if es != [] {
      var last := es[|es| - 1];
      BytesAreVolume(es[..|es| - 1]);
      BytesJoin(es[..|es| - 1], [last]);
      assert Bytes([last]) == last.data.bytes + Bytes([]) by { assert [last][1..] == []; }
      LastApart(es);
    }
  }

  /** Every shard but the last holds at least 5 GB, and none held as much before its last tensor. */
  lemma ShardSizes(groups: seq<seq<Tensor>>, ts: seq<Tensor>, i: nat)
    requires Packing(groups, ts) && i < |groups|
    ensures groups[i] != [] && Volume(Filled(groups[i][..|groups[i]| - 1])) < 5_000_000_000
    ensures i < |groups| - 1 ==> Volume(Filled(groups[i])) >= 5_000_000_000
  {
    var group := groups[i];
    assert group != [] && Tight(group);
    BytesAreVolume(Filled(group));
    BytesAreVolume(Filled(group[..|group| - 1]));
    if |group| == 1 { assert Filled(group[..0]) == []; } else { assert !Full(group[..|group| - 1]); }
    hide Filled, Flat;
  }

  // ---------- reading a run's output back ----------

  /** Not left out: neither a vision or audio tensor of a text-only run, nor an unwanted draft head. */
  predicate Wanted(t: Tensor, textOnly: bool, preserveMtp: bool) {
    (textOnly ==> !t.vision && !t.audio) && (t.mtp ==> preserveMtp)
  }

  lemma {:induction false} KeptAreWanted(ts: seq<Tensor>, textOnly: bool, preserveMtp: bool)
    ensures forall t :: t in AllKept(ts, textOnly, preserveMtp) <==> t in ts && Wanted(t, textOnly, preserveMtp)
  {
    if ts != [] {
      KeptAreWanted(ts[..|ts| - 1], textOnly, preserveMtp);
      LastApart(ts);
    }
  }

  /** The array under this key, in the file that the weight map names for it. */
  predicate Found(files: map<string, seq<Entry>>, where: map<string, string>, key: string, data: Array) {
    key in where && where[key] in files && Entry(key, data) in files[where[key]]
  }

  /** The name of a module without the suffix of its weights. */
  predicate Stem(name: string, stem: string) { name == stem + ".weight" || (name == stem && !EndsWith(name, ".weight")) }

  /** After a run with distinct output keys, every tensor that was not left out can be read back: a cast one
      under its name, a quantised one as weights, scales and, if there are any, biases beside each other. */
  lemma EveryTensorIsFound(files: map<string, seq<Entry>>, where: map<string, string>, ts: seq<Tensor>, textOnly: bool,
                           preserveMtp: bool, naming: Naming, t: Tensor, stem: string)
    requires Stored(files, where, Groups(AllKept(ts, textOnly, preserveMtp)), naming)
    requires DistinctKeys(AllEntries(AllKept(ts, textOnly, preserveMtp)))
    requires t in ts && Wanted(t, textOnly, preserveMtp) && Stem(t.name, stem)
    ensures match t.form
      case Cast(data) => Found(files, where, t.name, data)
      case Quantised(weights, scales, biases) =>
        && Found(files, where, stem + ".weight", weights) && Found(files, where, stem + ".scales", scales)
        && (biases.Some? ==> Found(files, where, stem + ".biases", biases.value))
  {
    var kept := AllKept(ts, textOnly, preserveMtp);
    KeptAreWanted(ts, textOnly, preserveMtp);
    GroupsAreThePacking(Groups(kept), kept);
    assert Flat(Groups(kept)) == kept;
    EntriesNamed(t, stem);
    hide Stored, Groups, Packing, AllKept, Flat, DistinctKeys, Entries;
    forall e | e in Entries(t) ensures Found(files, where, e.key, e.data) {
      EntryInAll(kept, t, e);
      EveryArrayIsFound(files, where, Groups(kept), naming, e);
    }
  }

  lemma EntriesNamed(t: Tensor, stem: string)
    requires Stem(t.name, stem)
    ensures match t.form
      case Cast(data) => Entry(t.name, data) in Entries(t)
      case Quantised(weights, scales, biases) =>
        && Entry(stem + ".weight", weights) in Entries(t) && Entry(stem + ".scales", scales) in Entries(t)
        && (biases.Some? ==> Entry(stem + ".biases", biases.value) in Entries(t))
  {
    if t.form.Quantised? {
      assert EndsWith(t.name, ".weight") ==> t.name[..|t.name| - 7] == stem;
      var es := Entries(t);
      assert es[0].data == t.form.weights && es[1].data == t.form.scales;
      if t.form.biases.Some? { assert es[2].data == t.form.biases.value; }
    }
  }

  lemma {:induction false} EntryInAll(ts: seq<Tensor>, t: Tensor, e: Entry)
    requires t in ts && e in Entries(t)
    ensures e in AllEntries(ts)
  {
    hide Entries;
    LastApart(ts);
    if ts[|ts| - 1] != t { EntryInAll(ts[..|ts| - 1], t, e); }
  }
}
