/** The state of the multi-model engine pool (omlx/engine_pool.py, EnginePool), the order of evictions,
    and loading, unloading and discovery as functions on states. What the code reads from outside
    (memory, clocks, request activity, start-up results) comes from the World, indexed by a tick that
    advances at every reading. A load is cut where it waits: for the engine to start, for a drafter to
    load, and for buffers to be released. */
module PoolState {
  import opened Common

  datatype ModelType = Llm | VisionModel | EmbeddingModel | RerankerModel | AudioModel | Video | VideoUpscaler | Image

  datatype EngineType = Batched | Vlm | HrmText | Embedding | Reranker | Audio | Media

  /** The limits the enforcer writes into a generation engine's scheduler. */
  datatype Scheduler = Scheduler(softLimit: int, hardLimit: int, paused: bool)

  datatype Engine = Engine(isVlm: bool, scheduler: Option<Scheduler>)

  /** One discovered model. An entry is an object in the code: born tells apart the objects that
      successive discoveries register under one id. */
  datatype Entry = Entry(
    model: ModelType,
    kind: EngineType,
    size: nat,
    engine: Option<Engine>,
    lastAccess: int,
    loading: bool,
    pinned: bool,
    abortLoading: bool,
    born: nat)

  /** What a discovery finds about a model. */
  datatype Found = Found(model: ModelType, kind: EngineType, size: nat)

  /** Everything the pool reads from outside, at each tick. */
  datatype World = World(
    memory: nat -> int,
    ceiling: nat -> int,
    headroom: nat -> int,
    active: (nat, string) -> bool,
    clock: nat -> int,
    shed: (nat, int, bool) -> (nat, nat),
    starts: (nat, nat) -> bool,
    drafts: (nat, string) -> bool,
    dflash: (nat, string) -> bool,
    schedules: (nat, string) -> bool)

  /** A run of discover_models: what it finds and which ids are to be pinned. */
  datatype Discovery = Discovery(found: map<string, Found>, pins: set<string>)

  predicate JobManaged(e: Entry) { e.model.Video? || e.model.VideoUpscaler? || e.model.Image? }

  predicate Generates(e: Entry) { e.kind.Batched? || e.kind.Vlm? || e.kind.HrmText? }

  // ---------- the memory ledger ----------

  ghost function LoadedIds(es: map<string, Entry>): set<string> { set id | id in es && es[id].engine.Some? }

  ghost function SizeOf(ids: set<string>, es: map<string, Entry>): nat
    requires ids <= es.Keys
  {
    if ids == {} then 0
    else
      var x :| x in ids;
      es[x].size + SizeOf(ids - {x}, es)
  }

  /** Estimated size of everything loaded. */
  ghost function LoadedSize(es: map<string, Entry>): nat { SizeOf(LoadedIds(es), es) }

  lemma {:induction false} SizeWithout(ids: set<string>, es: map<string, Entry>, x: string)
    requires ids <= es.Keys && x in ids
    ensures SizeOf(ids, es) == es[x].size + SizeOf(ids - {x}, es)
  {
    var y :| y in ids && SizeOf(ids, es) == es[y].size + SizeOf(ids - {y}, es);
    if y != x {
      SizeWithout(ids - {y}, es, x);
      SizeWithout(ids - {x}, es, y);
      assert ids - {y} - {x} == ids - {x} - {y};
    }
  }

  lemma {:induction false} SizeAgrees(ids: set<string>, a: map<string, Entry>, b: map<string, Entry>)
    requires ids <= a.Keys && ids <= b.Keys && forall id <- ids :: a[id].size == b[id].size
    ensures SizeOf(ids, a) == SizeOf(ids, b)
  {
    if ids != {} {
      var x :| x in ids;
      SizeWithout(ids, a, x);
      SizeWithout(ids, b, x);
      SizeAgrees(ids - {x}, a, b);
    }
  }

  /** Same entries up to fields that do not matter to the ledger. */
  ghost predicate SameLoads(a: map<string, Entry>, b: map<string, Entry>) {
    && LoadedIds(a) == LoadedIds(b)
    && forall id <- LoadedIds(a) :: a[id].size == b[id].size
  }

  lemma SameLoadsSameSize(a: map<string, Entry>, b: map<string, Entry>)
    requires SameLoads(a, b)
    ensures LoadedSize(a) == LoadedSize(b)
  {
    SizeAgrees(LoadedIds(a), a, b);
  }

  function Unloaded(e: Entry): Entry { e.(engine := None, lastAccess := 0) }

  lemma UnloadedSize(es: map<string, Entry>, id: string)
    requires id in es && es[id].engine.Some?
    ensures var out := es[id := Unloaded(es[id])];
      LoadedSize(out) == LoadedSize(es) - es[id].size && LoadedIds(out) == LoadedIds(es) - {id}
  {
    var out := es[id := Unloaded(es[id])];
    assert LoadedIds(out) == LoadedIds(es) - {id};
    SizeWithout(LoadedIds(es), es, id);
    SizeAgrees(LoadedIds(out), es, out);
  }

  lemma LoadedSizeGains(es: map<string, Entry>, id: string, e: Entry)
    requires id in es && es[id].engine.None? && e.engine.Some? && e.size == es[id].size
    ensures LoadedSize(es[id := e]) == LoadedSize(es) + e.size
  {
    var out := es[id := e];
    assert LoadedIds(out) == LoadedIds(es) + {id};
    assert LoadedIds(es) + {id} - {id} == LoadedIds(es);
    SizeWithout(LoadedIds(out), out, id);
    SizeAgrees(LoadedIds(es), es, out);
  }

  /** discover_models: loaded entries only get their pin updated, every other discovered id gets a
      new entry, and unloaded entries that were not found disappear. */
  function Discovered(es: map<string, Entry>, d: Discovery, born: nat): map<string, Entry> {
    map id | id in es.Keys + d.found.Keys && (id in d.found || es[id].engine.Some?) ::
      if id in es && es[id].engine.Some? then
        if id in d.found then es[id].(pinned := id in d.pins) else es[id]
      else
        Entry(d.found[id].model, d.found[id].kind, d.found[id].size, None, 0, false, id in d.pins, false, born)
  }

  lemma DiscoveredLoads(es: map<string, Entry>, d: Discovery, born: nat)
    ensures SameLoads(es, Discovered(es, d, born))
  {
    assert LoadedIds(es) == LoadedIds(Discovered(es, d, born));
  }

  // ---------- eviction order ----------

  predicate LessId(a: string, b: string) {
    b != [] && (a == [] || a[0] < b[0] || (a[0] == b[0] && LessId(a[1..], b[1..])))
  }

  lemma {:induction false} LessIdOrders(a: string, b: string, c: string)
    ensures !LessId(a, a)
    ensures a != b ==> LessId(a, b) || LessId(b, a)
    ensures LessId(a, b) && LessId(b, c) ==> LessId(a, c)
  {
    if a != [] { LessIdOrders(a[1..], a[1..], a[1..]); }
    if a != [] && b != [] {
      LessIdOrders(a[1..], b[1..], if c == [] then [] else c[1..]);
      if a != b && a[0] == b[0] { assert a[1..] != b[1..] by { assert a == [a[0]] + a[1..] && b == [b[0]] + b[1..]; } }
    }
  }

  /** Python's order on (last_access, id) pairs. */
  predicate Older(a: (int, string), b: (int, string)) { a.0 < b.0 || (a.0 == b.0 && LessId(a.1, b.1)) }

  lemma OlderOrders(a: (int, string), b: (int, string), c: (int, string))
    ensures !Older(a, a) && (a == b || Older(a, b) || Older(b, a))
    ensures Older(a, b) && Older(b, c) ==> Older(a, c)
  {
    LessIdOrders(a.1, b.1, c.1);
  }

  function Key(es: map<string, Entry>, id: string): (int, string)
    requires id in es
  {
    (es[id].lastAccess, id)
  }

  /** Loaded, not pinned, and without active requests at this tick. */
  predicate Evictable(es: map<string, Entry>, w: World, tick: nat, id: string) {
    id in es && es[id].engine.Some? && !es[id].pinned && !w.active(tick, id)
  }

  /** The least recently used evictable model. */
  ghost predicate IsVictim(es: map<string, Entry>, w: World, tick: nat, id: string) {
    Evictable(es, w, tick, id)
    && forall o :: Evictable(es, w, tick, o) && o != id ==> Older(Key(es, id), Key(es, o))
  }

  // ---------- evictions ----------

  /** One eviction: the tick at which the model was picked. */
  datatype Pick = Pick(tick: nat, id: string)

  predicate WasPicked(picks: seq<Pick>, id: string) { exists p <- picks :: p.id == id }

  /** The entries once these models have been unloaded. */
  function Without(es: map<string, Entry>, picks: seq<Pick>): map<string, Entry> {
    map id <- es :: if WasPicked(picks, id) then Unloaded(es[id]) else es[id]
  }

  /** Every pick was, at its own tick and among what was then left, the least recently used model
      that was loaded, unpinned and idle. */
  ghost predicate Picked(es: map<string, Entry>, picks: seq<Pick>, w: World, lo: nat, hi: nat) {
    && (forall k :: 0 <= k < |picks| ==>
          lo < picks[k].tick <= hi && IsVictim(Without(es, picks[..k]), w, picks[k].tick, picks[k].id))
    && forall j, k :: 0 <= j < k < |picks| ==> picks[j].tick < picks[k].tick
  }

  lemma PickedOne(es: map<string, Entry>, picks: seq<Pick>, w: World, lo: nat, hi: nat, now: nat, tick: nat, id: string)
    requires Picked(es, picks, w, lo, hi) && lo <= hi < tick <= now && IsVictim(Without(es, picks), w, tick, id)
    ensures Picked(es, picks + [Pick(tick, id)], w, lo, now)
  {
    var more := picks + [Pick(tick, id)];
    hide IsVictim, Without;
    assert more[..|picks|] == picks;
    forall k | 0 <= k < |more|
      ensures lo < more[k].tick <= now && IsVictim(Without(es, more[..k]), w, more[k].tick, more[k].id)
    {
      if k < |picks| { assert more[..k] == picks[..k]; }
    }
  }

  lemma WithoutOneMore(es: map<string, Entry>, picks: seq<Pick>, pick: Pick)
    requires pick.id in es
    ensures Without(es, picks + [pick]) == Without(es, picks)[pick.id := Unloaded(Without(es, picks)[pick.id])]
    ensures Without(es, []) == es
  {
    var more := picks + [pick];
    assert more[|picks|] in more;
    assert forall p :: p in more <==> p in picks || p == pick;
  }

  lemma VictimIsEvictable(es: map<string, Entry>, w: World, tick: nat, id: string)
    requires IsVictim(es, w, tick, id)
    ensures Evictable(es, w, tick, id)
  {
  }

  /** Whoever is evicted was loaded, unpinned, and idle at the moment it was picked; and is evicted
      only once. */
  lemma PickedWereIdle(es: map<string, Entry>, picks: seq<Pick>, w: World, lo: nat, hi: nat, k: nat)
    requires Picked(es, picks, w, lo, hi) && k < |picks|
    ensures var id := picks[k].id;
      && id in es && es[id].engine.Some? && !es[id].pinned && !w.active(picks[k].tick, id)
      && forall j :: 0 <= j < k ==> picks[j].id != id
  {
    var id := picks[k].id;
    VictimIsEvictable(Without(es, picks[..k]), w, picks[k].tick, id);
    forall j | 0 <= j < k ensures picks[j].id != id {
      assert picks[..k][j] in picks[..k];
    }
  }

  lemma NotPicked(picks: seq<Pick>, id: string)
    requires forall j :: 0 <= j < |picks| ==> picks[j].id != id
    ensures !WasPicked(picks, id)
  {
  }

  function LastAccess(es: map<string, Entry>, id: string): int { if id in es then es[id].lastAccess else 0 }

  /** The picks are in the order of (last access, id). */
  ghost predicate Increasing(es: map<string, Entry>, picks: seq<Pick>) {
    forall j, k :: 0 <= j < k < |picks| ==>
      Older((LastAccess(es, picks[j].id), picks[j].id), (LastAccess(es, picks[k].id), picks[k].id))
  }

  /** No model becomes idle after another one was idle. */
  ghost predicate Settled(w: World, lo: nat, hi: nat) {
    forall s: nat, t: nat, a: string, b: string ::
      lo < s < t <= hi && a != b && !w.active(s, b) && w.active(s, a) ==> w.active(t, a)
  }

  lemma SettledInOrder(es: map<string, Entry>, picks: seq<Pick>, w: World, lo: nat, hi: nat)
    requires Settled(w, lo, hi) && Picked(es, picks, w, lo, hi)
    ensures Increasing(es, picks)
  {
    hide Settled, Picked, Older, LastAccess;
    forall j, k | 0 <= j < k < |picks|
      ensures Older((LastAccess(es, picks[j].id), picks[j].id), (LastAccess(es, picks[k].id), picks[k].id))
    {
      SettledPair(es, picks, w, lo, hi, j, k);
    }
  }

  lemma SettledPair(es: map<string, Entry>, picks: seq<Pick>, w: World, lo: nat, hi: nat, j: nat, k: nat)
    requires Settled(w, lo, hi) && Picked(es, picks, w, lo, hi) && j < k < |picks|
    ensures Older((LastAccess(es, picks[j].id), picks[j].id), (LastAccess(es, picks[k].id), picks[k].id))
  {
    var left, a, b := Without(es, picks[..j]), picks[k].id, picks[j].id;
    assert lo < picks[j].tick < picks[k].tick <= hi && IsVictim(left, w, picks[j].tick, b);
    hide IsVictim, Without, Older, Picked;
    PickedWereIdle(es, picks, w, lo, hi, j);
    PickedWereIdle(es, picks, w, lo, hi, k);
    assert !w.active(picks[j].tick, a);
    hide Settled;
    NotPicked(picks[..j], a);
    NotPicked(picks[..j], b);
    LeftAlone(es, picks[..j], a);
    LeftAlone(es, picks[..j], b);
    VictimIsOldest(left, w, picks[j].tick, b, a);
  }

  lemma LeftAlone(es: map<string, Entry>, picks: seq<Pick>, id: string)
    requires id in es && !WasPicked(picks, id)
    ensures id in Without(es, picks) && Without(es, picks)[id] == es[id]
  {
  }

  lemma VictimIsOldest(es: map<string, Entry>, w: World, tick: nat, id: string, o: string)
    requires IsVictim(es, w, tick, id) && Evictable(es, w, tick, o) && o != id
    ensures id in es && Older(Key(es, id), Key(es, o))
  {
  }

  function Idle(lastAccess: int): Entry {
    Entry(Llm, Batched, 0, Some(Engine(false, None)), lastAccess, false, false, false, 0)
  }

  /** A model that becomes idle too late is evicted after a younger one. */
  lemma UnsettledOutOfOrder(w: World, lo: nat, hi: nat, s: nat, t: nat, a: string, b: string)
    requires lo < s < t <= hi && a != b && !w.active(s, b) && w.active(s, a) && !w.active(t, a)
    ensures var es, picks := map[a := Idle(0), b := Idle(1)], [Pick(s, b), Pick(t, a)];
      Picked(es, picks, w, lo, hi) && !Increasing(es, picks)
  {
    var es, picks := map[a := Idle(0), b := Idle(1)], [Pick(s, b), Pick(t, a)];
    assert picks[..0] == [] && picks[..1] == [Pick(s, b)];
    assert !WasPicked([], a) && !WasPicked([], b);
    assert Without(es, []) == es;
    assert IsVictim(es, w, s, b);
    assert Pick(s, b) in [Pick(s, b)];
    assert WasPicked([Pick(s, b)], b) && !WasPicked([Pick(s, b)], a);
    assert IsVictim(Without(es, [Pick(s, b)]), w, t, a);
    assert Picked(es, picks, w, lo, hi);
    assert !Older((LastAccess(es, picks[0].id), picks[0].id), (LastAccess(es, picks[1].id), picks[1].id));
  }

  /** Evictions are in the order of last access, for all pools, exactly while no model becomes idle
      after another one was. */
  lemma OrderIffSettled(w: World, lo: nat, hi: nat)
    ensures Settled(w, lo, hi) <==>
      forall es: map<string, Entry>, picks: seq<Pick> :: Picked(es, picks, w, lo, hi) ==> Increasing(es, picks)
  {
    if Settled(w, lo, hi) {
      forall es: map<string, Entry>, picks: seq<Pick> | Picked(es, picks, w, lo, hi) ensures Increasing(es, picks) {
        SettledInOrder(es, picks, w, lo, hi);
      }
    } else {
      var s: nat, t: nat, a: string, b: string :|
        lo < s < t <= hi && a != b && !w.active(s, b) && w.active(s, a) && !w.active(t, a);
      UnsettledOutOfOrder(w, lo, hi, s, t, a, b);
    }
  }

  // ---------- the state ----------

  /** An entry object: its id and its birth. */
  type Object = (string, nat)

  /** What a load waits for: its engine; then, with the engine registered, its drafter; at last the
      release of buffers, with nothing registered if it was asked to abort. */
  datatype Stage = Starting | Drafting | Leaving(aborted: bool)

  /** A load in progress: whether its loader holds the lock; and, once a discovery has replaced or
      removed the entry, the entry object the loader still refers to. */
  datatype Load = Load(forceLm: bool, locked: bool, stage: Stage, orphan: Option<Entry>)

  /** lost is the size of what was loaded into orphans: counted, but nowhere to be found. */
  datatype State = State(
    tick: nat,
    entries: map<string, Entry>,
    memory: int,
    discoveries: nat,
    loads: map<Object, Load>,
    lock: Option<Object>,
    lost: nat)

  function ObjectOf(es: map<string, Entry>, id: string): Object
    requires id in es
  {
    (id, es[id].born)
  }

  /** The entry object of a load. */
  function Own(s: State, k: Object): Entry
    requires k in s.loads && (s.loads[k].orphan.None? ==> k.0 in s.entries)
  {
    if s.loads[k].orphan.Some? then s.loads[k].orphan.value else s.entries[k.0]
  }

  /** Nothing is registered yet, or will be. */
  predicate Unregistered(stage: Stage) { stage.Starting? || (stage.Leaving? && stage.aborted) }

  /** Entries are marked as loading exactly during their load, have no engine before it is registered,
      and only a load without the lock can have been asked to abort. */
  ghost predicate EntryFits(s: State, id: string)
    requires id in s.entries
  {
    var e, k := s.entries[id], ObjectOf(s.entries, id);
    && e.born <= s.discoveries
    && (e.loading <==> k in s.loads) && (e.loading && Unregistered(s.loads[k].stage) ==> e.engine.None?)
    && (e.abortLoading ==> e.loading && !s.loads[k].locked)
  }

  ghost predicate LoadFits(s: State, k: Object)
    requires k in s.loads
  {
    && k.1 <= s.discoveries
    && (s.loads[k].locked ==> s.lock == Some(k))
    && match s.loads[k].orphan
       case None => k.0 in s.entries && s.entries[k.0].born == k.1
       case Some(e) => (k.0 in s.entries ==> s.entries[k.0].born != k.1) && e.born == k.1
                       && (e.abortLoading ==> !s.loads[k].locked)
  }

  ghost predicate Orderly(s: State) {
    && (forall id <- s.entries :: EntryFits(s, id))
    && (forall k <- s.loads :: LoadFits(s, k))
    && (s.lock.Some? ==> s.lock.value in s.loads && s.loads[s.lock.value].locked)
  }

  /** The memory counter is the size of what is loaded, and of what was lost. */
  ghost predicate Counted(s: State) { s.memory == LoadedSize(s.entries) + s.lost }

  ghost predicate Consistent(s: State) { Orderly(s) && Counted(s) }

  // ---------- unloading ----------

  /** _unload_engine, including its settle barrier. */
  function Unload(s: State, id: string): State {
    if id !in s.entries || s.entries[id].engine.None? then s
    else s.(entries := s.entries[id := Unloaded(s.entries[id])],
            memory := s.memory - s.entries[id].size, tick := s.tick + 1)
  }

  lemma UnloadKeeps(s: State, id: string)
    requires Consistent(s)
    ensures Consistent(Unload(s, id))
  {
    if id in s.entries && s.entries[id].engine.Some? {
      UnloadedSize(s.entries, id);
      hide LoadedSize;
      var t := Unload(s, id);
      forall o | o in t.entries ensures EntryFits(t, o) { assert EntryFits(s, o); }
      forall k | k in t.loads ensures LoadFits(t, k) { assert LoadFits(s, k); }
    }
  }

  // ---------- loading ----------

  /** The first segment of _load_engine. */
  function BeginLoad(s: State, id: string, forceLm: bool, locked: bool): State
    requires id in s.entries
  {
    var k := ObjectOf(s.entries, id);
    s.(entries := s.entries[id := s.entries[id].(loading := true, abortLoading := false)],
       loads := s.loads[k := Load(forceLm, locked, Starting, None)],
       lock := if locked then Some(k) else s.lock)
  }

  lemma BeginLoadKeeps(s: State, id: string, forceLm: bool, locked: bool)
    requires Consistent(s) && id in s.entries && s.entries[id].engine.None? && !s.entries[id].loading
    requires locked ==> s.lock.None?
    ensures Consistent(BeginLoad(s, id, forceLm, locked))
  {
    var t, k := BeginLoad(s, id, forceLm, locked), ObjectOf(s.entries, id);
    MarkOnly(s.entries, id, t.entries[id]);
    hide LoadedSize;
    assert EntryFits(s, id);
    forall o | o in t.entries ensures EntryFits(t, o) { assert EntryFits(s, o); }
    forall l | l in t.loads ensures LoadFits(t, l) {
      if l != k { assert LoadFits(s, l); }
    }
  }

  /** Changing an unloaded entry without loading it leaves the ledger alone. */
  lemma MarkOnly(es: map<string, Entry>, id: string, e: Entry)
    requires id in es && es[id].engine.None? && e.engine.None?
    ensures LoadedSize(es[id := e]) == LoadedSize(es)
  {
    assert LoadedIds(es) == LoadedIds(es[id := e]);
    SameLoadsSameSize(es, es[id := e]);
  }

  /** How starting an engine ends at this tick, with its fallbacks: None when it fails for good. The
      entry is returned because a vision model that only loads as text is relabelled for good. */
  function Boot(w: World, tick: nat, e: Entry, id: string, forceLm: bool): (Option<Engine>, Entry) {
    var dflash := w.dflash(tick, id);
    var asLm := forceLm && e.kind.Vlm?;
    var scheduler := if w.schedules(tick, id) then Some(Scheduler(0, 0, false)) else None;
    if !dflash && e.kind.Media? then (None, e)
    else if w.starts(tick, 0) then (Some(Engine(!dflash && e.kind.Vlm? && !asLm, scheduler)), e)
    else if !w.starts(tick, 1) || (!dflash && !e.kind.Vlm?) then (None, e)
    else if dflash then (Some(Engine(e.kind.Vlm? && !asLm, scheduler)), e)
    else if asLm then (Some(Engine(true, scheduler)), e)
    else (Some(Engine(false, scheduler)), e.(model := Llm, kind := Batched))
  }

  /** The load refers to an entry object. */
  predicate Refers(s: State, k: Object) { k in s.loads && (s.loads[k].orphan.None? ==> k.0 in s.entries) }

  /** How the engine of this load starts. */
  function Booted(s: State, w: World, k: Object): (Option<Engine>, Entry)
    requires Refers(s, k)
  {
    Boot(w, s.tick + 1, Own(s, k), k.0, s.loads[k].forceLm)
  }

  /** The load comes to an engine that may be registered. */
  predicate Completes(s: State, w: World, k: Object)
    requires Refers(s, k)
  {
    Booted(s, w, k).0.Some? && !Own(s, k).abortLoading
  }

  datatype Verdict =
    | Fit(current: int)
    | Alone(current: int)
    | TooLarge(current: int)
    | Insufficient(current: int)

  datatype Answer =
    | Ready(engine: Engine)
    | NotFound
    | NotLoadable
    | Missing
    | Refused(verdict: Verdict)
    | AlreadyLoading
    | StartFailed
    | LoadAborted

  /** What becomes of the loader's entry object once the engine has started or failed. */
  function Registered(s: State, w: World, k: Object): Entry
    requires Refers(s, k)
  {
    var (engine, own) := Booted(s, w, k);
    if Completes(s, w, k) then own.(engine := engine, lastAccess := w.clock(s.tick + 1))
    else if engine.Some? then own
    else own.(loading := false, abortLoading := false)
  }

  /** The second segment of _load_engine: up to the wait for the drafter, if there is one, or for the
      release of buffers; a start that fails is the end of it. */
  function StartEnds(s: State, w: World, k: Object): State
    requires Refers(s, k)
  {
    var size := if Completes(s, w, k) then Own(s, k).size else 0;
    var stage := if !Completes(s, w, k) then Leaving(true) else if w.drafts(s.tick + 1, k.0) then Drafting else Leaving(false);
    var over := Booted(s, w, k).0.None?;
    s.(tick := s.tick + 1,
       entries := if s.loads[k].orphan.None? then s.entries[k.0 := Registered(s, w, k)] else s.entries,
       memory := s.memory + size,
       lost := s.lost + if s.loads[k].orphan.Some? then size else 0,
       loads := if over then s.loads - {k} else s.loads[k := s.loads[k].(stage := stage)],
       lock := if over && s.lock == Some(k) then None else s.lock)
  }

  /** The answer of a start that failed. */
  function StartAnswer(s: State, w: World, k: Object): Option<Answer>
    requires Refers(s, k)
  {
    if Booted(s, w, k).0.Some? then None
    else if Own(s, k).kind.Media? && !w.dflash(s.tick + 1, k.0) then Some(NotLoadable)
    else Some(StartFailed)
  }

  /** The drafter is there, or given up. */
  function DraftEnds(s: State, k: Object): State
    requires k in s.loads
  {
    s.(loads := s.loads[k := s.loads[k].(stage := Leaving(false))])
  }

  /** The end of _load_engine. */
  function LoadEnds(s: State, k: Object): State
    requires Refers(s, k)
  {
    s.(entries := if s.loads[k].orphan.None? then s.entries[k.0 := Own(s, k).(loading := false, abortLoading := false)] else s.entries,
       loads := s.loads - {k},
       lock := if s.lock == Some(k) then None else s.lock)
  }

  /** What get_engine answers then. */
  function LoadAnswer(s: State, k: Object): Answer
    requires k in s.loads
  {
    if s.loads[k].stage == Leaving(true) then LoadAborted
    else if k.0 in s.entries && s.entries[k.0].engine.Some? then Ready(s.entries[k.0].engine.value)
    else Missing
  }

  lemma StartEndsKeeps(s: State, w: World, k: Object)
    requires Consistent(s) && k in s.loads && s.loads[k].stage.Starting?
    ensures LoadFits(s, k) && Consistent(StartEnds(s, w, k))
  {
    assert LoadFits(s, k);
    if s.loads[k].orphan.None? { assert EntryFits(s, k.0); }
    hide LoadedSize, Boot, Registered, Completes, Orderly;
    StartEndsOrderly(s, w, k);
    RegisteredIs(s, w, k);
    if s.loads[k].orphan.None? {
      if Completes(s, w, k) {
        LoadedSizeGains(s.entries, k.0, Registered(s, w, k));
      } else {
        MarkOnly(s.entries, k.0, Registered(s, w, k));
      }
    }
  }

  lemma RegisteredIs(s: State, w: World, k: Object)
    requires Refers(s, k)
    ensures var e, f := Own(s, k), Registered(s, w, k);
      && f.size == e.size && f.born == e.born && (Completes(s, w, k) ==> f.engine.Some?)
      && (!Completes(s, w, k) ==> f.engine == e.engine)
      && f.loading == (e.loading && Booted(s, w, k).0.Some?) && f.abortLoading == (e.abortLoading && Booted(s, w, k).0.Some?)
  {
  }

  lemma StartEndsOrderly(s: State, w: World, k: Object)
    requires Orderly(s) && k in s.loads && s.loads[k].stage.Starting? && LoadFits(s, k)
    ensures Orderly(StartEnds(s, w, k))
  {
    RegisteredIs(s, w, k);
    if s.loads[k].orphan.None? { assert EntryFits(s, k.0); }
    var t := StartEnds(s, w, k);
    hide Boot, Booted, Registered;
    forall o | o in t.entries ensures EntryFits(t, o) { assert EntryFits(s, o); }
    forall l | l in t.loads ensures LoadFits(t, l) { assert LoadFits(s, l); }
  }

  lemma DraftEndsKeeps(s: State, k: Object)
    requires Consistent(s) && k in s.loads && s.loads[k].stage.Drafting?
    ensures Consistent(DraftEnds(s, k))
  {
    var t := DraftEnds(s, k);
    hide LoadedSize;
    forall o | o in t.entries ensures EntryFits(t, o) { assert EntryFits(s, o); }
    forall l | l in t.loads ensures LoadFits(t, l) { assert LoadFits(s, l); }
  }

  lemma LoadEndsKeeps(s: State, k: Object)
    requires Consistent(s) && k in s.loads
    ensures LoadFits(s, k) && Consistent(LoadEnds(s, k))
  {
    assert LoadFits(s, k);
    var t := LoadEnds(s, k);
    if s.loads[k].orphan.None? {
      assert LoadedIds(s.entries) == LoadedIds(t.entries);
      SameLoadsSameSize(s.entries, t.entries);
    }
    hide LoadedSize;
    forall o | o in t.entries ensures EntryFits(t, o) { assert EntryFits(s, o); }
    forall l | l in t.loads ensures LoadFits(t, l) { assert LoadFits(s, l); }
  }

  // ---------- discovery, pinning, reloading ----------

  /** The loads, once those whose entry has no engine have lost it. */
  function WithoutEntries(s: State): map<Object, Load>
    requires forall k <- s.loads :: s.loads[k].orphan.None? ==> k.0 in s.entries
  {
    map k <- s.loads ::
      if s.loads[k].orphan.None? && s.entries[k.0].engine.None? then s.loads[k].(orphan := Some(s.entries[k.0])) else s.loads[k]
  }

  /** discover_models is synchronous and takes no lock. */
  function Discover(s: State, d: Discovery): State
    requires forall k <- s.loads :: s.loads[k].orphan.None? ==> k.0 in s.entries
  {
    s.(discoveries := s.discoveries + 1, entries := Discovered(s.entries, d, s.discoveries + 1), loads := WithoutEntries(s))
  }

  lemma DiscoverKeeps(s: State, d: Discovery)
    requires Consistent(s)
    ensures (forall k <- s.loads :: LoadFits(s, k)) && Consistent(Discover(s, d))
  {
    forall k | k in s.loads ensures LoadFits(s, k) {}
    var t := Discover(s, d);
    DiscoveredLoads(s.entries, d, s.discoveries + 1);
    SameLoadsSameSize(s.entries, t.entries);
    DiscoveredEntries(s, d);
    hide LoadedSize, Discovered, EntryFits;
    forall k | k in t.loads ensures LoadFits(t, k) {
      assert LoadFits(s, k);
      LoadLosesEntry(s, d, k);
    }
  }

  lemma DiscoveredEntries(s: State, d: Discovery)
    requires Orderly(s)
    ensures forall id <- Discover(s, d).entries :: EntryFits(Discover(s, d), id)
  {
    forall k | k in s.loads ensures k.1 <= s.discoveries { assert LoadFits(s, k); }
    forall id | id in Discover(s, d).entries ensures EntryFits(Discover(s, d), id) {
      if id in s.entries { assert EntryFits(s, id); }
    }
  }

  /** A discovery replaces or removes every entry without an engine, and keeps the others. */
  lemma LoadLosesEntry(s: State, d: Discovery, k: Object)
    requires Orderly(s) && k in s.loads
    ensures LoadFits(s, k) && Own(s, k).born == k.1
    ensures Own(s, k).engine.None? || s.loads[k].orphan.Some? ==>
      (k.0 in Discover(s, d).entries ==> Discover(s, d).entries[k.0].born != k.1)
    ensures Own(s, k).engine.Some? && s.loads[k].orphan.None? ==>
      k.0 in Discover(s, d).entries && Discover(s, d).entries[k.0].born == k.1
  {
    assert LoadFits(s, k);
    if k.0 in s.entries { assert EntryFits(s, k.0); }
  }

  predicate MayLoad(s: State, id: string, locked: bool) {
    id in s.entries && s.entries[id].engine.None? && !s.entries[id].loading && (locked ==> s.lock.None?)
  }

  lemma OverlapFits(s: State, id: string, forceLm: bool, locked: bool, d: Discovery)
    requires Consistent(s) && MayLoad(s, id, locked)
    ensures var k, s1 := ObjectOf(s.entries, id), BeginLoad(s, id, forceLm, locked);
      && (forall l <- s1.loads :: LoadFits(s1, l))
      && Consistent(Discover(s1, d)) && k in Discover(s1, d).loads && LoadFits(Discover(s1, d), k)
  {
    BeginLoadKeeps(s, id, forceLm, locked);
    var s1 := BeginLoad(s, id, forceLm, locked);
    hide BeginLoad, LoadedSize, Discovered, EntryFits, LoadFits;
    DiscoverKeeps(s1, d);
  }

  /** A load whose entry is discovered anew while its engine starts. */
  ghost function Overlapped(s: State, w: World, id: string, forceLm: bool, locked: bool, d: Discovery): State
    requires Consistent(s) && MayLoad(s, id, locked)
  {
    OverlapFits(s, id, forceLm, locked, d);
    StartEnds(Discover(BeginLoad(s, id, forceLm, locked), d), w, ObjectOf(s.entries, id))
  }

  /** If and only if the engine starts at one of its attempts, the model's size stays in the counter
      without being loaded. */
  lemma OverlapLosesSize(s: State, w: World, id: string, forceLm: bool, locked: bool, d: Discovery)
    requires Consistent(s) && MayLoad(s, id, locked)
    ensures var t, e := Overlapped(s, w, id, forceLm, locked, d), s.entries[id].(loading := true, abortLoading := false);
      && Consistent(t) && t.lost == s.lost + (if Boot(w, s.tick + 1, e, id, forceLm).0.Some? then e.size else 0)
      && t.entries == Discovered(s.entries[id := e], d, s.discoveries + 1)
  {
    var k, s1 := ObjectOf(s.entries, id), BeginLoad(s, id, forceLm, locked);
    OverlapFits(s, id, forceLm, locked, d);
    hide Boot, Discovered, LoadedSize, EntryFits;
    StartEndsKeeps(Discover(s1, d), w, k);
  }

  /** A load that was asked to abort while its engine starts registers nothing. */
  lemma MarkedLoadAborts(s: State, w: World, k: Object)
    requires Consistent(s) && k in s.loads && LoadFits(s, k) && s.loads[k].stage.Starting? && Own(s, k).abortLoading
    ensures var t := StartEnds(s, w, k);
      && t.memory == s.memory && t.lost == s.lost && LoadedIds(t.entries) == LoadedIds(s.entries)
      && (StartAnswer(s, w, k).Some? || (k in t.loads && LoadAnswer(t, k) == LoadAborted))
    ensures !s.loads[k].locked
  {
    hide LoadedSize;
    if s.loads[k].orphan.None? { assert EntryFits(s, k.0); }
  }

  function SetPinned(s: State, id: string, pinned: bool): State {
    if id in s.entries then s.(entries := s.entries[id := s.entries[id].(pinned := pinned)]) else s
  }

  /** Entries that differ only in what neither the ledger nor a load looks at. */
  ghost predicate SameButUse(a: map<string, Entry>, b: map<string, Entry>) {
    && a.Keys == b.Keys
    && forall id <- a :: && b[id].engine.Some? == a[id].engine.Some? && b[id].size == a[id].size && b[id].born == a[id].born
                         && b[id].loading == a[id].loading && b[id].abortLoading == a[id].abortLoading
  }

  lemma UseKeeps(s: State, es: map<string, Entry>, tick: nat)
    requires Consistent(s) && SameButUse(s.entries, es)
    ensures Consistent(s.(entries := es, tick := tick))
  {
    assert LoadedIds(s.entries) == LoadedIds(es);
    SameLoadsSameSize(s.entries, es);
    hide LoadedSize;
    var t := s.(entries := es, tick := tick);
    forall o | o in t.entries ensures EntryFits(t, o) { assert EntryFits(s, o); }
    forall k | k in t.loads ensures LoadFits(t, k) { assert LoadFits(s, k); }
  }

  /** What the administration does, without the lock, when settings of a loaded model change: it is
      unloaded and, if pinned, its load begins again. */
  function Reload(s: State, id: string): (Option<Answer>, State) {
    if id !in s.entries then (Some(NotFound), s)
    else if s.entries[id].engine.None? then (Some(Missing), s)
    else
      var t := Unload(s, id);
      if !s.entries[id].pinned then (Some(Missing), t)
      else if t.entries[id].loading then (Some(AlreadyLoading), t)
      else (None, BeginLoad(t, id, false, false))
  }

  lemma ReloadKeeps(s: State, id: string)
    requires Consistent(s)
    ensures Consistent(Reload(s, id).1)
  {
    UnloadKeeps(s, id);
    if id in s.entries {
      var t := Unload(s, id);
      hide Consistent;
      if s.entries[id].pinned && !t.entries[id].loading { BeginLoadKeeps(t, id, false, false); }
    }
  }
}
