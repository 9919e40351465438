/** Whole runs of the engine pool and its enforcer. Whatever waits in the code is cut where it waits:
    a request for a model and the administration's reload wait for the engine to start, for a drafter,
    and for buffers to be released; a tick waits for the lock. In between, anything that is enabled may
    happen. */
module PoolRuns {
  import opened Common
  import opened Limits
  import opened PoolState
  import opened PoolAdmission
  import opened EnginePool
  import opened Enforcer

  datatype Op =
    | Get(id: string, forceLm: bool)
    | StartOver(load: Object)
    | DraftOver(load: Object)
    | LoadOver(load: Object)
    | Reload(id: string)
    | UnloadNow(id: string)
    | Ttl(ttl: map<string, int>, fallback: Option<int>)
    | BeginTick
    | EndTick
    | Discover(discovery: Discovery)
    | Pin(id: string, pinned: bool)
    | AcquireLease(bytes: int)
    | ReleaseLease
    | Worker(bound: bool)
    | Guard(on: bool)
    | Start
    | Stop
    | Shutdown

  /** What an operation answered, and how it went. */
  datatype How =
    | Fetched(admission: Admission, answer: Option<Answer>)
    | Begun(failure: Option<Answer>)
    | Loaded(outcome: Answer)
    | Reloaded(answer: Option<Answer>)
    | Checked(gone: set<string>, at: map<string, nat>)
    | Eased(relief: Relief)
    | Known(known: bool)
    | Leased(result: LeaseResult)
    | Plain

  /** What takes the lock waits for it; a tick waits for the end of the last one; and only a load in
      progress can end. */
  predicate May(op: Op, free: bool, loads: map<Object, Load>, running: bool, waiting: bool) {
    match op
    case Get(_, _) | Ttl(_, _) | Shutdown => free
    case StartOver(k) => k in loads && loads[k].stage.Starting?
    case DraftOver(k) => k in loads && loads[k].stage.Drafting?
    case LoadOver(k) => k in loads && loads[k].stage.Leaving?
    case BeginTick => running && !waiting
    case EndTick => waiting && free
    case _ => true
  }

  predicate Enabled(op: Op, s: Snap) {
    May(op, s.pool.lock.None?, s.pool.loads, s.control.running, s.control.waiting.Some?)
  }

  /** Once the drafter is there, or at once if there is none, the limits are propagated to the new engine
      and to every other. */
  function StartEnded(u: Setup, s: Snap, k: Object): Snap
    requires Refers(s.pool, k)
  {
    var t := s.(pool := StartEnds(s.pool, u.world, k));
    if Completes(s.pool, u.world, k) && !u.world.drafts(s.pool.tick + 1, k.0) then Propagate(u, t) else t
  }

  /** One enabled operation. */
  ghost predicate Stepped(u: Setup, a: Snap, op: Op, how: How, b: Snap)
    requires Enabled(op, a)
  {
    match op
    case Get(id, forceLm) =>
      how.Fetched? && b.control == a.control && Got(u.world, a.pool, id, forceLm, how.admission, how.answer, b.pool)
    case StartOver(k) => LoadFits(a.pool, k) && how == Begun(StartAnswer(a.pool, u.world, k)) && b == StartEnded(u, a, k)
    case DraftOver(k) => b == Propagate(u, a.(pool := DraftEnds(a.pool, k)))
    case LoadOver(k) => LoadFits(a.pool, k) && how == Loaded(LoadAnswer(a.pool, k)) && b == a.(pool := LoadEnds(a.pool, k))
    case Reload(id) =>
      var (answer, t) := PoolState.Reload(a.pool, id);
      how == Reloaded(answer) && b == a.(pool := t)
    case UnloadNow(id) => b == a.(pool := Unload(a.pool, id))
    case Ttl(ttl, fallback) =>
      how.Checked? && b.control == a.control && TtlChecked(u.world, a.pool, ttl, fallback, how.gone, how.at, b.pool)
    case BeginTick => b == Enforcer.BeginTick(u, a)
    case EndTick => how.Eased? && TickEnded(u, a, how.relief, b)
    case Discover(d) => (forall k <- a.pool.loads :: LoadFits(a.pool, k)) && b == a.(pool := PoolState.Discover(a.pool, d))
    case Pin(id, pinned) => how == Known(id in a.pool.entries) && b == a.(pool := SetPinned(a.pool, id, pinned))
    case AcquireLease(bytes) => how.Leased? && (how.result, b) == Acquired(u, a, bytes)
    case ReleaseLease => b == Released(u, a)
    case Worker(bound) => b == Bound(a, bound)
    case Guard(on) => b == Guarded(u, a, on)
    case Start => b == Started(u, a)
    case Stop => b == Halted(a)
    case Shutdown => b.control == a.control && ShutDown(a.pool, b.pool)
  }

  /** Its engine is registered, and its load waits for the drafter. */
  predicate IsDrafting(s: State, id: string)
    requires id in s.entries
  {
    var k := ObjectOf(s.entries, id);
    k in s.loads && s.loads[k].stage.Drafting?
  }

  /** Every scheduler, but that of an engine whose load waits for its drafter, was told this. */
  ghost predicate Heard(s: State, paused: bool) {
    forall id <- s.entries :: s.entries[id].engine.Some? && s.entries[id].engine.value.scheduler.Some? && !IsDrafting(s, id) ==>
      s.entries[id].engine.value.scheduler.value.paused == paused
  }

  /** In every state the memory counter is exact, every load is accounted for, every scheduler was told
      last what the others were told, unless its load waits for a drafter, and while a tick waits for
      the lock admission is paused. */
  ghost predicate Safe(s: Snap) {
    && Consistent(s.pool) && Heard(s.pool, s.control.told)
    && (s.control.waiting.Some? ==> s.control.told && s.control.level != Ok)
  }

  // ---------- what a step does to the entries ----------

  /** Nothing but these models' engines, and what does not matter here, has changed. */
  ghost predicate Shrunk(a: map<string, Entry>, b: map<string, Entry>, gone: set<string>) {
    b.Keys == a.Keys
    && forall id <- a :: b[id].pinned == a[id].pinned && b[id].born == a[id].born
                         && b[id].engine == if id in gone then None else a[id].engine
  }

  lemma ShrunkTwice(a: map<string, Entry>, b: map<string, Entry>, c: map<string, Entry>, g: set<string>, h: set<string>)
    requires Shrunk(a, b, g) && Shrunk(b, c, h)
    ensures Shrunk(a, c, g + h)
  {
  }

  /** No engine is new, and who waits for a drafter goes on. */
  ghost predicate NothingNew(a: State, b: State) {
    && (forall id <- b.entries :: b.entries[id].engine.Some? ==>
          id in a.entries && b.entries[id].engine == a.entries[id].engine && b.entries[id].born == a.entries[id].born)
    && forall k <- a.loads :: a.loads[k].stage.Drafting? ==> k in b.loads && b.loads[k].stage.Drafting?
  }

  lemma NothingNewHeard(a: State, b: State, paused: bool)
    requires NothingNew(a, b) && Heard(a, paused)
    ensures Heard(b, paused)
  {
  }

  lemma ShrunkHeard(a: State, b: State, gone: set<string>, paused: bool)
    requires Shrunk(a.entries, b.entries, gone) && Heard(a, paused)
    requires forall k <- a.loads :: k in b.loads && b.loads[k] == a.loads[k]
    ensures Heard(b, paused)
  {
    NothingNewHeard(a, b, paused);
  }

  lemma WithoutShrinks(es: map<string, Entry>, picks: seq<Pick>)
    ensures Shrunk(es, Without(es, picks), Ids(picks))
  {
    forall id | id in es ensures WasPicked(picks, id) <==> id in Ids(picks) {}
  }

  lemma PropagatedAdmits(es: map<string, Entry>, soft: int, hard: int, paused: bool)
    ensures AllTold(Propagated(es, soft, hard, paused), paused)
  {
  }

  lemma PropagateSafe(u: Setup, s: Snap)
    requires Consistent(s.pool) && (s.control.waiting.Some? ==> s.control.level != Ok)
    ensures Safe(Propagate(u, s))
  {
    PropagateKeeps(u, s);
    hide Consistent, LimitAt, Threshold, Propagated;
    var ceiling := LimitAt(u, s.control, s.pool.tick + 1);
    PropagatedAdmits(s.pool.entries, Threshold(ceiling, u.softRatio), ceiling, s.control.level != Ok);
    hide LimitAt;
  }

  /** Which models a request unloads: the requested one, if it is loaded as the wrong kind of
      engine, and those evicted for it. */
  ghost function Displaced(s: State, id: string, forceLm: bool, adm: Admission): set<string> {
    if id !in s.entries || JobManaged(s.entries[id]) || Serves(s.entries, id, forceLm) then {} else {id} + Ids(adm.picks)
  }

  lemma UnloadShrinks(s: State, id: string)
    ensures Shrunk(s.entries, Unload(s, id).entries, {id})
  {
  }

  lemma AdmittedKeeps(w: World, s: State, id: string, adm: Admission, m: State)
    requires Consistent(s) && id in s.entries && s.entries[id].engine.None? && Admitted(w, s, id, adm, m)
    ensures Consistent(m) && Shrunk(s.entries, m.entries, Ids(adm.picks)) && m.lock == s.lock && m.loads == s.loads
    ensures m.entries[id].engine.None? && m.entries[id].loading == s.entries[id].loading
    ensures forall o <- Ids(adm.picks) :: o in s.entries && !s.entries[o].pinned && s.entries[o].engine.Some?
  {
    var ceiling := w.ceiling(s.tick + 1);
    assert ceiling <= 0 ==> adm.picks == [];
    WithoutShrinks(s.entries, adm.picks);
    hide Consistent, Justified, Without, Needed, Evicted, Shrunk;
    assert ceiling <= 0 || Picked(s.entries, adm.picks, w, s.tick + 1, m.tick);
    assert Picked(s.entries, adm.picks, w, s.tick + 1, m.tick);
    EvictedKeeps(s, adm.picks, w, s.tick + 1, m.tick, m);
    forall k | 0 <= k < |adm.picks|
      ensures var o := adm.picks[k].id; o in s.entries && !s.entries[o].pinned && s.entries[o].engine.Some?
    {
      PickedWereIdle(s.entries, adm.picks, w, s.tick + 1, m.tick, k);
    }
  }

  lemma GotKeeps(w: World, s: State, id: string, forceLm: bool, adm: Admission, answer: Option<Answer>, t: State)
    requires Consistent(s) && s.lock.None? && Got(w, s, id, forceLm, adm, answer, t)
    ensures Consistent(t) && Shrunk(s.entries, t.entries, Displaced(s, id, forceLm, adm))
    ensures forall o <- Displaced(s, id, forceLm, adm) :: o != id ==> o in s.entries && !s.entries[o].pinned
    ensures forall k <- s.loads :: k in t.loads && t.loads[k] == s.loads[k]
  {
    hide Consistent, Shrunk, JobManaged, Ids, Admitted, Proceeds;
    if id !in s.entries || JobManaged(s.entries[id]) {
      NothingShrinks(s.entries);
    } else if Serves(s.entries, id, forceLm) {
      UseKeeps(s, t.entries, t.tick);
      ServingShrinks(w, s, id, t.entries);
    } else {
      var m: State :| Admitted(w, Unload(s, id), id, adm, m) && Proceeds(m, id, forceLm, adm, answer, t);
      DisplacingKeeps(w, s, id, forceLm, adm, m, answer, t);
    }
  }

  lemma NothingShrinks(es: map<string, Entry>)
    ensures Shrunk(es, es, {})
  {
  }

  lemma ServingShrinks(w: World, s: State, id: string, es: map<string, Entry>)
    requires id in s.entries && es == s.entries[id := s.entries[id].(lastAccess := w.clock(s.tick + 1))]
    ensures Shrunk(s.entries, es, {})
  {
  }

  lemma DisplacingKeeps(w: World, s: State, id: string, forceLm: bool, adm: Admission, m: State, answer: Option<Answer>, t: State)
    requires Consistent(s) && s.lock.None? && id in s.entries
    requires Admitted(w, Unload(s, id), id, adm, m) && Proceeds(m, id, forceLm, adm, answer, t)
    ensures Consistent(t) && Shrunk(s.entries, t.entries, {id} + Ids(adm.picks))
    ensures forall o <- Ids(adm.picks) :: o != id ==> o in s.entries && !s.entries[o].pinned
    ensures forall k <- s.loads :: k in t.loads && t.loads[k] == s.loads[k]
  {
    hide Consistent, Admitted, Proceeds, Ids, Shrunk;
    UnloadKeeps(s, id);
    UnloadShrinks(s, id);
    AdmittedKeeps(w, Unload(s, id), id, adm, m);
    ShrunkTwice(s.entries, Unload(s, id).entries, m.entries, {id}, Ids(adm.picks));
    ProceedsKeeps(m, id, forceLm, adm, answer, t);
    ShrunkTwice(s.entries, m.entries, t.entries, {id} + Ids(adm.picks), {});
    assert {id} + Ids(adm.picks) + {} == {id} + Ids(adm.picks);
  }

  lemma ProceedsKeeps(m: State, id: string, forceLm: bool, adm: Admission, answer: Option<Answer>, t: State)
    requires Consistent(m) && m.lock.None? && id in m.entries && m.entries[id].engine.None?
    requires Proceeds(m, id, forceLm, adm, answer, t)
    ensures Consistent(t) && Shrunk(m.entries, t.entries, {})
    ensures forall k <- m.loads :: k in t.loads && t.loads[k] == m.loads[k]
  {
    if answer.None? {
      assert EntryFits(m, id);
      BeginLoadKeeps(m, id, forceLm, true);
    }
    hide Consistent;
  }

  lemma TtlKeeps(w: World, s: State, ttl: map<string, int>, fallback: Option<int>, gone: set<string>, at: map<string, nat>, t: State)
    requires Consistent(s) && TtlChecked(w, s, ttl, fallback, gone, at, t)
    ensures Consistent(t) && t.loads == s.loads && Shrunk(s.entries, t.entries, gone * s.entries.Keys)
    ensures forall o <- gone * s.entries.Keys :: !s.entries[o].pinned
  {
    hide LoadedSize, EntryFits, LoadFits, Expired, TtlTreated;
    forall id | id in s.entries
      ensures t.entries[id].pinned == s.entries[id].pinned && t.entries[id].born == s.entries[id].born
      ensures t.entries[id].engine == if id in gone then None else s.entries[id].engine
      ensures id in gone ==> !s.entries[id].pinned
      ensures EntryFits(t, id)
    {
      assert EntryFits(s, id);
      TtlOne(w, s, ttl, fallback, gone, at, t, id);
    }
    forall k | k in t.loads ensures LoadFits(t, k) { assert LoadFits(s, k); TtlLoad(s, t, k); }
  }

  lemma TtlLoad(s: State, t: State, k: Object)
    requires k in s.loads && LoadFits(s, k) && t == s.(tick := t.tick, entries := t.entries, memory := t.memory)
    requires t.entries.Keys == s.entries.Keys && forall id <- s.entries :: t.entries[id].born == s.entries[id].born
    ensures LoadFits(t, k)
  {
  }

  lemma TtlOne(w: World, s: State, ttl: map<string, int>, fallback: Option<int>, gone: set<string>, at: map<string, nat>,
               t: State, id: string)
    requires id in s.entries && EntryFits(s, id) && TtlChecked(w, s, ttl, fallback, gone, at, t)
    ensures var e, f := s.entries[id], t.entries[id];
      && f.pinned == e.pinned && f.born == e.born && f.engine == (if id in gone then None else e.engine)
      && (id in gone ==> !e.pinned) && EntryFits(t, id)
  {
    hide LoadedSize;
    assert TtlTreated(w, id, s.entries[id], t.entries[id], Expired(s.entries, ttl, fallback, w.clock(s.tick + 1), id),
                      w.clock(s.tick + 1), id in gone, Turn(at, id), s.tick, t.tick);
  }

  lemma RelievedKeeps(w: World, s: State, target: int, hard: bool, r: Relief, t: State)
    requires Consistent(s) && s.lock.None? && Relieved(w, s, target, hard, r, t)
    ensures Consistent(t) && t.loads == s.loads && Shrunk(s.entries, t.entries, Ids(r.picks))
    ensures forall o <- Ids(r.picks) :: o in s.entries && !s.entries[o].pinned
    ensures r.marked <= Abortable(s.entries)
    ensures forall id <- s.entries :: t.entries[id].abortLoading == (s.entries[id].abortLoading || id in r.marked)
  {
    var left := Without(s.entries, r.picks);
    var m := t.(entries := left);
    assert r.marked <= Abortable(left);
    assert m.(entries := Marked(m.entries, r.marked)) == t;
    assert Picked(s.entries, r.picks, w, s.tick, t.tick) && Evicted(s, r.picks, m);
    hide *;
    ReliefSpares(w, s, target, hard, r, t);
    WithoutShrinks(s.entries, r.picks);
    MarkedFrom(s.entries, r.picks);
    EvictedKeeps(s, r.picks, w, s.tick, t.tick, m);
    MarkingKeeps(m, r.marked);
    MarkedShrinks(s.entries, left, Ids(r.picks), r.marked);
  }

  lemma MarkedShrinks(a: map<string, Entry>, b: map<string, Entry>, gone: set<string>, marked: set<string>)
    requires Shrunk(a, b, gone)
    ensures Shrunk(a, Marked(b, marked), gone)
    ensures forall id <- b :: Marked(b, marked)[id].abortLoading == (b[id].abortLoading || id in marked)
  {
  }

  lemma MarkedFrom(es: map<string, Entry>, picks: seq<Pick>)
    ensures Abortable(Without(es, picks)) == Abortable(es)
    ensures forall id <- es :: Without(es, picks)[id].abortLoading == es[id].abortLoading
  {
  }

  lemma ShutDownKeeps(s: State, t: State)
    requires Consistent(s) && ShutDown(s, t)
    ensures Consistent(t) && t.loads == s.loads && Shrunk(s.entries, t.entries, s.entries.Keys)
  {
    assert LoadedIds(t.entries) == {};
    forall id | id in t.entries ensures EntryFits(t, id) { assert EntryFits(s, id); }
    forall k | k in t.loads ensures LoadFits(t, k) { assert LoadFits(s, k); }
  }

  // ---------- safety ----------

  lemma StartOverSafe(u: Setup, a: Snap, k: Object)
    requires Safe(a) && k in a.pool.loads && a.pool.loads[k].stage.Starting? && LoadFits(a.pool, k)
    ensures Safe(StartEnded(u, a, k))
  {
    hide Consistent, LoadFits, Boot, Booted, StartEnds, Heard, Completes, Propagate, Refers;
    FitsRefers(a.pool, k);
    assert Consistent(a.pool);
    hide Safe;
    StartEndsKeeps(a.pool, u.world, k);
    StartHeard(u, a, k);
    ToldOrHeard(u, a, StartEnds(a.pool, u.world, k), Completes(a.pool, u.world, k) && !u.world.drafts(a.pool.tick + 1, k.0));
  }

  lemma FitsRefers(s: State, k: Object)
    requires k in s.loads && LoadFits(s, k)
    ensures Refers(s, k)
  {
  }

  lemma ToldOrHeard(u: Setup, a: Snap, p: State, tell: bool)
    requires Safe(a) && Consistent(p) && (!tell ==> Heard(p, a.control.told))
    ensures Safe(if tell then Propagate(u, a.(pool := p)) else a.(pool := p))
  {
    hide Consistent, Heard, Propagate;
    if tell { PropagateSafe(u, a.(pool := p)); }
  }

  lemma StartHeard(u: Setup, a: Snap, k: Object)
    requires Safe(a) && k in a.pool.loads && a.pool.loads[k].stage.Starting? && LoadFits(a.pool, k)
    ensures !Completes(a.pool, u.world, k) || u.world.drafts(a.pool.tick + 1, k.0) ==>
      Heard(StartEnds(a.pool, u.world, k), a.control.told)
  {
    if k.0 in a.pool.entries { assert EntryFits(a.pool, k.0); }
    hide LoadedSize, Boot;
  }

  lemma DraftOverSafe(u: Setup, a: Snap, k: Object)
    requires Safe(a) && k in a.pool.loads && a.pool.loads[k].stage.Drafting?
    ensures Safe(Propagate(u, a.(pool := DraftEnds(a.pool, k))))
  {
    DraftEndsKeeps(a.pool, k);
    hide Consistent, Heard, DraftEnds;
    PropagateSafe(u, a.(pool := DraftEnds(a.pool, k)));
  }

  lemma LoadOverSafe(a: Snap, k: Object)
    requires Safe(a) && k in a.pool.loads && a.pool.loads[k].stage.Leaving? && LoadFits(a.pool, k)
    ensures Safe(a.(pool := LoadEnds(a.pool, k)))
  {
    LoadEndsKeeps(a.pool, k);
    hide Consistent;
  }

  lemma SetLevelSafe(u: Setup, s: Snap, level: Level)
    requires Consistent(s.pool) && Heard(s.pool, s.control.told) && s.control.waiting.None?
    requires s.control.told == (s.control.level != Ok)
    ensures Safe(SetLevel(u, s, level)) && SetLevel(u, s, level).control.told == (level != Ok)
    ensures SetLevel(u, s, level).control.level == level && SetLevel(u, s, level).control.waiting.None?
  {
    hide Consistent, Heard, Propagated, LimitAt;
    if level != s.control.level { PropagateSafe(u, s.(control := s.control.(level := level))); }
  }

  lemma LaterSafe(s: Snap, ticks: nat)
    requires Consistent(s.pool)
    ensures Consistent(Later(s, ticks).pool)
  {
    UseKeeps(s.pool, s.pool.entries, s.pool.tick + ticks);
  }

  lemma LaterHeard(s: Snap, ticks: nat)
    requires Heard(s.pool, s.control.told)
    ensures Heard(Later(s, ticks).pool, s.control.told) && Later(s, ticks).control == s.control
    ensures Later(s, ticks).pool.tick == s.pool.tick + ticks
  {
  }

  lemma PropagateTells(u: Setup, s: Snap)
    ensures var t := Propagate(u, s);
      && t.control == s.control.(lastCeiling := t.control.lastCeiling, told := s.control.level != Ok)
      && t.pool.tick == s.pool.tick + 1
      && forall tick: nat :: LimitAt(u, t.control, tick) == LimitAt(u, s.control, tick)
  {
    hide HardLimit, Threshold, Propagated;
  }

  lemma BeginTickSafe(u: Setup, s: Snap)
    requires Safe(s) && s.control.waiting.None?
    ensures Safe(Enforcer.BeginTick(u, s))
    ensures var t := Enforcer.BeginTick(u, s);
      t.control.told != (t.control.level != Ok) <==> LimitAt(u, s.control, s.pool.tick + 2) <= 0 && s.control.level != Ok
  {
    hide Consistent, Heard, Propagate, LimitAt, LevelOf, SetLevel, Later, Threshold;
    var p := Propagate(u, s);
    PropagateSafe(u, s);
    PropagateTells(u, s);
    LaterSafe(p, 2);
    LaterHeard(p, 2);
    var ceiling := LimitAt(u, p.control, p.pool.tick + 1);
    if ceiling > 0 {
      SetLevelSafe(u, Later(p, 2), LevelOf(u, u.world.memory(p.pool.tick + 2), ceiling));
    } else {
      LaterSafe(p.(control := p.control.(level := Ok)), 1);
      LaterHeard(p.(control := p.control.(level := Ok)), 1);
    }
  }

  lemma TickEndedSafe(u: Setup, a: Snap, r: Relief, b: Snap)
    requires Safe(a) && a.pool.lock.None? && TickEnded(u, a, r, b)
    ensures Safe(b) && b.control.told == (b.control.level != Ok)
  {
    var waiting := a.control.waiting.value;
    var p: State :| Relieved(u.world, a.pool, waiting.target, waiting.seen == Hard, r, p)
                    && b == Reassess(u, Snap(p, a.control.(waiting := None)));
    RelievedKeeps(u.world, a.pool, waiting.target, waiting.seen == Hard, r, p);
    ShrunkHeard(a.pool, p, Ids(r.picks), a.control.told);
    hide Consistent, Heard, Relieved, TickEnded, LimitAt, LevelOf, Shrunk;
    var s := Snap(p, a.control.(waiting := None));
    LaterSafe(s, 2);
    SetLevelSafe(u, Later(s, 2), LevelOf(u, u.world.memory(p.tick + 1), LimitAt(u, s.control, p.tick + 2)));
  }

  lemma DiscoveredHeard(s: State, d: Discovery, paused: bool)
    requires Consistent(s) && Heard(s, paused)
    ensures (forall k <- s.loads :: LoadFits(s, k)) && Heard(PoolState.Discover(s, d), paused)
  {
    DiscoverKeeps(s, d);
    hide LoadedSize;
    NothingNewHeard(s, PoolState.Discover(s, d), paused);
  }

  /** Every enabled operation keeps the pool and its enforcer safe. */
  lemma StepKeepsSafe(u: Setup, a: Snap, op: Op, how: How, b: Snap)
    requires Safe(a) && Enabled(op, a) && Stepped(u, a, op, how, b)
    ensures Safe(b)
  {
    hide Heard, LoadedSize, Consistent, LimitAt, Propagated, Discovered, Shrunk, Got, TtlChecked, ShutDown, TickEnded, Boot;
    match op
    case Get(id, forceLm) =>
      GotKeeps(u.world, a.pool, id, forceLm, how.admission, how.answer, b.pool);
      ShrunkHeard(a.pool, b.pool, Displaced(a.pool, id, forceLm, how.admission), a.control.told);
    case StartOver(k) => StartOverSafe(u, a, k);
    case DraftOver(k) => DraftOverSafe(u, a, k);
    case LoadOver(k) => LoadOverSafe(a, k);
    case Reload(id) => ReloadSafe(a, id);
    case UnloadNow(id) => UnloadSafe(a, id);
    case Ttl(ttl, fallback) =>
      TtlKeeps(u.world, a.pool, ttl, fallback, how.gone, how.at, b.pool);
      ShrunkHeard(a.pool, b.pool, how.gone * a.pool.entries.Keys, a.control.told);
    case BeginTick => BeginTickSafe(u, a);
    case EndTick => TickEndedSafe(u, a, how.relief, b);
    case Discover(d) =>
      DiscoverKeeps(a.pool, d);
      DiscoveredHeard(a.pool, d, a.control.told);
    case Pin(id, pinned) => PinSafe(a, id, pinned);
    case Shutdown =>
      ShutDownKeeps(a.pool, b.pool);
      ShrunkHeard(a.pool, b.pool, a.pool.entries.Keys, a.control.told);
    case _ => SettingsSafe(u, a, op, how, b);
  }

  lemma ReloadSafe(a: Snap, id: string)
    requires Safe(a)
    ensures Safe(a.(pool := PoolState.Reload(a.pool, id).1))
  {
    ReloadKeeps(a.pool, id);
    ReloadNew(a.pool, id);
    hide Consistent, Heard, NothingNew, PoolState.Reload;
    NothingNewHeard(a.pool, PoolState.Reload(a.pool, id).1, a.control.told);
  }

  lemma ReloadNew(s: State, id: string)
    requires Consistent(s)
    ensures NothingNew(s, PoolState.Reload(s, id).1)
  {
    if id in s.entries { assert EntryFits(s, id); }
    hide Consistent, EntryFits;
    UnloadNew(s, id);
  }

  lemma UnloadNew(s: State, id: string)
    ensures NothingNew(s, Unload(s, id))
  {
  }

  lemma UnloadSafe(a: Snap, id: string)
    requires Safe(a)
    ensures Safe(a.(pool := Unload(a.pool, id)))
  {
    UnloadKeeps(a.pool, id);
    UnloadNew(a.pool, id);
    hide Consistent, Heard, NothingNew, Unload;
    NothingNewHeard(a.pool, Unload(a.pool, id), a.control.told);
  }

  lemma PinSafe(a: Snap, id: string, pinned: bool)
    requires Safe(a)
    ensures Safe(a.(pool := SetPinned(a.pool, id, pinned)))
  {
    UseKeeps(a.pool, SetPinned(a.pool, id, pinned).entries, a.pool.tick);
    assert NothingNew(a.pool, SetPinned(a.pool, id, pinned));
    hide Consistent, Heard, NothingNew;
    NothingNewHeard(a.pool, SetPinned(a.pool, id, pinned), a.control.told);
  }

  lemma SettingsSafe(u: Setup, a: Snap, op: Op, how: How, b: Snap)
    requires op.AcquireLease? || op.ReleaseLease? || op.Worker? || op.Guard? || op.Start? || op.Stop?
    requires Safe(a) && Stepped(u, a, op, how, b)
    ensures Safe(b)
  {
    hide Heard, Consistent, Propagate;
    if op.AcquireLease? { PropagateSafe(u, a.(control := a.control.(lease := op.bytes))); }
    if op.ReleaseLease? { PropagateSafe(u, a.(control := a.control.(lease := 0, bound := false))); }
    if op.Guard? { PropagateSafe(u, a.(control := a.control.(guard := op.on))); }
    if op.Start? { PropagateSafe(u, a.(control := a.control.(running := true))); }
  }

  // ---------- admission ----------

  /** The schedulers were told something else than the pressure level says. */
  predicate Lagging(s: Snap) { s.control.told != (s.control.level != Ok) }

  /** Does this operation, other than a tick, tell the schedulers the present level? */
  predicate Tells(u: Setup, s: Snap, op: Op)
    requires op.StartOver? ==> Refers(s.pool, op.load)
  {
    match op
    case StartOver(k) => Completes(s.pool, u.world, k) && !u.world.drafts(s.pool.tick + 1, k.0)
    case DraftOver(_) => true
    case AcquireLease(bytes) => bytes > 0 && s.control.lease <= 0 && s.control.running
    case ReleaseLease => s.control.lease > 0 && s.control.running
    case Guard(_) => s.control.running
    case Start => !s.control.running
    case _ => false
  }

  /** Admission falls behind the level exactly when a tick finds no ceiling to enforce while the level
      was up, and catches up with the next operation that propagates; no load in between escapes it. */
  lemma LagIsExact(u: Setup, a: Snap, op: Op, how: How, b: Snap)
    requires Safe(a) && Enabled(op, a) && Stepped(u, a, op, how, b)
    ensures Lagging(b) <==>
      if op.BeginTick? then LimitAt(u, a.control, a.pool.tick + 2) <= 0 && a.control.level != Ok
      else Lagging(a) && !Tells(u, a, op)
  {
    hide Heard, LoadedSize, Consistent, LimitAt, Propagated, Discovered, Got, TtlChecked, ShutDown, TickEnded, Boot, LoadFits;
    if op.BeginTick? { BeginTickSafe(u, a); }
    if op.EndTick? { TickEndedSafe(u, a, how.relief, b); }
  }

  // ---------- pinned models ----------

  /** Loaded and pinned. */
  predicate Held(es: map<string, Entry>, id: string) { id in es && es[id].engine.Some? && es[id].pinned }

  /** Everything but a shutdown, unpinning it, discovering it without a pin, unloading or reloading
      it by name, and a request for it as another kind of engine. */
  predicate Spares(s: State, op: Op, id: string) {
    match op
    case Get(other, forceLm) => other != id || Serves(s.entries, id, forceLm) || (id in s.entries && JobManaged(s.entries[id]))
    case Reload(other) => other != id
    case UnloadNow(other) => other != id
    case Discover(d) => id in d.found ==> id in d.pins
    case Pin(other, pinned) => other != id || pinned
    case Shutdown => false
    case _ => true
  }

  lemma ShrunkHeld(a: map<string, Entry>, b: map<string, Entry>, gone: set<string>, id: string)
    requires Shrunk(a, b, gone) && Held(a, id)
    ensures Held(b, id) <==> id !in gone
  {
  }

  lemma PropagateHeld(u: Setup, s: Snap, id: string)
    ensures Held(Propagate(u, s).pool.entries, id) <==> Held(s.pool.entries, id)
  {
    hide LimitAt, Threshold;
  }

  lemma SetLevelHeld(u: Setup, s: Snap, level: Level, id: string)
    ensures Held(SetLevel(u, s, level).pool.entries, id) <==> Held(s.pool.entries, id)
  {
    hide Propagate, Held;
    PropagateHeld(u, s.(control := s.control.(level := level)), id);
  }

  lemma BeginTickHeld(u: Setup, s: Snap, id: string)
    ensures Held(Enforcer.BeginTick(u, s).pool.entries, id) <==> Held(s.pool.entries, id)
  {
    hide Propagate, SetLevel, Held, LimitAt, LevelOf;
    PropagateHeld(u, s, id);
    var p := Propagate(u, s);
    SetLevelHeld(u, Later(p, 2), LevelOf(u, u.world.memory(p.pool.tick + 2), LimitAt(u, p.control, p.pool.tick + 1)), id);
  }

  lemma EndTickHeld(u: Setup, a: Snap, r: Relief, b: Snap, id: string)
    requires Safe(a) && a.pool.lock.None? && TickEnded(u, a, r, b) && Held(a.pool.entries, id)
    ensures Held(b.pool.entries, id)
  {
    var waiting := a.control.waiting.value;
    var p: State :| Relieved(u.world, a.pool, waiting.target, waiting.seen == Hard, r, p)
                    && b == Reassess(u, Snap(p, a.control.(waiting := None)));
    RelievedKeeps(u.world, a.pool, waiting.target, waiting.seen == Hard, r, p);
    ShrunkHeld(a.pool.entries, p.entries, Ids(r.picks), id);
    assert id !in Ids(r.picks);
    hide Consistent, Heard, Relieved, TickEnded, LimitAt, LevelOf, Shrunk, SetLevel, Held, Ids;
    var s := Snap(p, a.control.(waiting := None));
    SetLevelHeld(u, Later(s, 2), LevelOf(u, u.world.memory(p.tick + 1), LimitAt(u, s.control, p.tick + 2)), id);
  }

  lemma StartOverHeld(u: Setup, a: Snap, k: Object, id: string)
    requires Safe(a) && k in a.pool.loads && a.pool.loads[k].stage.Starting? && LoadFits(a.pool, k) && Held(a.pool.entries, id)
    ensures Held(StartEnded(u, a, k).pool.entries, id)
  {
    if k.0 in a.pool.entries { assert EntryFits(a.pool, k.0); }
    hide LoadedSize, Boot, Propagate;
    PropagateHeld(u, a.(pool := StartEnds(a.pool, u.world, k)), id);
  }

  lemma SettingsHeld(u: Setup, a: Snap, op: Op, how: How, b: Snap, id: string)
    requires op.AcquireLease? || op.ReleaseLease? || op.Worker? || op.Guard? || op.Start? || op.Stop?
    requires Safe(a) && Stepped(u, a, op, how, b)
    ensures Held(b.pool.entries, id) <==> Held(a.pool.entries, id)
  {
    hide Heard, Consistent, Propagate, Held;
    if op.AcquireLease? { PropagateHeld(u, a.(control := a.control.(lease := op.bytes)), id); }
    if op.ReleaseLease? { PropagateHeld(u, a.(control := a.control.(lease := 0, bound := false)), id); }
    if op.Guard? { PropagateHeld(u, a.(control := a.control.(guard := op.on)), id); }
    if op.Start? { PropagateHeld(u, a.(control := a.control.(running := true)), id); }
  }

  /** A loaded, pinned model stays so through exactly these operations: no admission, expiry or
      relief of pressure takes it. */
  lemma PinnedStays(u: Setup, a: Snap, op: Op, how: How, b: Snap, id: string)
    requires Safe(a) && Enabled(op, a) && Stepped(u, a, op, how, b) && Held(a.pool.entries, id)
    ensures Held(b.pool.entries, id) <==> Spares(a.pool, op, id)
  {
    hide Heard, LoadedSize, LimitAt, Consistent, Got, TtlChecked, ShutDown, TickEnded, Boot, Shrunk, Propagate;
    match op
    case Get(other, forceLm) =>
      GotKeeps(u.world, a.pool, other, forceLm, how.admission, how.answer, b.pool);
      ShrunkHeld(a.pool.entries, b.pool.entries, Displaced(a.pool, other, forceLm, how.admission), id);
    case StartOver(k) => StartOverHeld(u, a, k, id);
    case DraftOver(k) => PropagateHeld(u, a.(pool := DraftEnds(a.pool, k)), id);
    case LoadOver(k) =>
    case Reload(other) =>
    case UnloadNow(other) =>
    case Ttl(ttl, fallback) =>
      TtlKeeps(u.world, a.pool, ttl, fallback, how.gone, how.at, b.pool);
      ShrunkHeld(a.pool.entries, b.pool.entries, how.gone * a.pool.entries.Keys, id);
    case BeginTick => BeginTickHeld(u, a, id);
    case EndTick => EndTickHeld(u, a, how.relief, b, id);
    case Discover(d) =>
    case Pin(other, pinned) =>
    case Shutdown =>
      ShutDownKeeps(a.pool, b.pool);
      ShrunkHeld(a.pool.entries, b.pool.entries, a.pool.entries.Keys, id);
    case _ => SettingsHeld(u, a, op, how, b, id);
  }

  // ---------- loads asked to abort, and loads that lost their entry ----------

  /** Entries being loaded keep their kind and their request to abort, and these ones get one. */
  ghost predicate Steady(a: map<string, Entry>, b: map<string, Entry>, marked: set<string>) {
    forall id <- a :: id in b && (a[id].loading ==>
      && b[id].born == a[id].born && b[id].model == a[id].model && b[id].kind == a[id].kind
      && b[id].abortLoading == (a[id].abortLoading || id in marked))
  }

  lemma GotLeaves(w: World, s: State, id: string, forceLm: bool, adm: Admission, answer: Option<Answer>, t: State)
    requires Got(w, s, id, forceLm, adm, answer, t)
    ensures Steady(s.entries, t.entries, {}) && t.lost == s.lost
  {
    if id in s.entries && !JobManaged(s.entries[id]) && !Serves(s.entries, id, forceLm) {
      var m: State :| Admitted(w, Unload(s, id), id, adm, m) && Proceeds(m, id, forceLm, adm, answer, t);
      hide Got, JobManaged, Serves;
      AdmittedLeaves(w, Unload(s, id), id, adm, m);
      UnloadLeaves(s, id);
      ProceedsLeaves(m, id, forceLm, adm, answer, t);
      hide Admitted, Proceeds, Unload;
    }
  }

  /** Marks, births, kinds and losses stay. */
  ghost predicate Unmarked(a: State, b: State) {
    && b.entries.Keys == a.entries.Keys && b.lost == a.lost
    && forall id <- a.entries :: b.entries[id].born == a.entries[id].born && b.entries[id].loading == a.entries[id].loading
                                 && b.entries[id].abortLoading == a.entries[id].abortLoading
                                 && b.entries[id].model == a.entries[id].model && b.entries[id].kind == a.entries[id].kind
  }

  lemma UnloadLeaves(s: State, id: string)
    ensures Unmarked(s, Unload(s, id))
  {
  }

  lemma AdmittedLeaves(w: World, s: State, id: string, adm: Admission, m: State)
    requires id in s.entries && Admitted(w, s, id, adm, m)
    ensures Unmarked(s, m)
  {
    hide LoadedSize, Picked, Justified, Needed, ShedAtNeed, ShedFirst;
  }

  lemma ProceedsLeaves(m: State, id: string, forceLm: bool, adm: Admission, answer: Option<Answer>, t: State)
    requires Proceeds(m, id, forceLm, adm, answer, t)
    ensures Steady(m.entries, t.entries, {}) && t.lost == m.lost
  {
  }

  lemma TtlLeaves(w: World, s: State, ttl: map<string, int>, fallback: Option<int>, gone: set<string>, at: map<string, nat>, t: State)
    requires TtlChecked(w, s, ttl, fallback, gone, at, t)
    ensures Steady(s.entries, t.entries, {}) && t.lost == s.lost
  {
    hide LoadedSize, Expired;
    forall id | id in s.entries
      ensures t.entries[id].born == s.entries[id].born && t.entries[id].abortLoading == s.entries[id].abortLoading
      ensures t.entries[id].model == s.entries[id].model && t.entries[id].kind == s.entries[id].kind
    {
      assert TtlTreated(w, id, s.entries[id], t.entries[id], Expired(s.entries, ttl, fallback, w.clock(s.tick + 1), id),
                        w.clock(s.tick + 1), id in gone, Turn(at, id), s.tick, t.tick);
    }
  }

  lemma PropagateLeaves(u: Setup, s: Snap)
    ensures var t := Propagate(u, s).pool;
      Steady(s.pool.entries, t.entries, {}) && t.loads == s.pool.loads && t.lost == s.pool.lost
  {
    hide LimitAt, Threshold;
  }

  lemma SetLevelLeaves(u: Setup, s: Snap, level: Level)
    ensures var t := SetLevel(u, s, level).pool;
      Steady(s.pool.entries, t.entries, {}) && t.loads == s.pool.loads && t.lost == s.pool.lost
  {
    PropagateLeaves(u, s.(control := s.control.(level := level)));
    hide Propagate;
  }

  lemma SteadyTwice(a: map<string, Entry>, b: map<string, Entry>, c: map<string, Entry>, marked: set<string>)
    requires Steady(a, b, marked) && Steady(b, c, {}) && forall id <- a :: id in b && (a[id].loading ==> b[id].loading)
    ensures Steady(a, c, marked)
  {
  }

  lemma BeginTickLeaves(u: Setup, s: Snap)
    ensures var t := Enforcer.BeginTick(u, s).pool;
      Steady(s.pool.entries, t.entries, {}) && t.loads == s.pool.loads && t.lost == s.pool.lost
  {
    PropagateLeaves(u, s);
    var p := Propagate(u, s);
    SetLevelLeaves(u, Later(p, 2), LevelOf(u, u.world.memory(p.pool.tick + 2), LimitAt(u, p.control, p.pool.tick + 1)));
    assert forall id <- s.pool.entries :: p.pool.entries[id].loading == s.pool.entries[id].loading;
    hide Propagate, SetLevel, LimitAt, LevelOf;
  }

  lemma RelievedLeaves(w: World, s: State, target: int, hard: bool, r: Relief, t: State)
    requires Relieved(w, s, target, hard, r, t)
    ensures Steady(s.entries, t.entries, r.marked) && t.loads == s.loads && t.lost == s.lost
    ensures forall id <- s.entries :: t.entries[id].loading == s.entries[id].loading
  {
    hide Picked, CalledFor, Stopped, Evicted;
  }

  lemma EndTickLeaves(u: Setup, a: Snap, r: Relief, b: Snap)
    requires Safe(a) && a.pool.lock.None? && TickEnded(u, a, r, b)
    ensures Steady(a.pool.entries, b.pool.entries, r.marked) && b.pool.loads == a.pool.loads && b.pool.lost == a.pool.lost
  {
    var waiting := a.control.waiting.value;
    var p: State :| Relieved(u.world, a.pool, waiting.target, waiting.seen == Hard, r, p)
                    && b == Reassess(u, Snap(p, a.control.(waiting := None)));
    RelievedLeaves(u.world, a.pool, waiting.target, waiting.seen == Hard, r, p);
    hide Consistent, Heard, Relieved, TickEnded, LimitAt, LevelOf, SetLevel;
    var s := Snap(p, a.control.(waiting := None));
    SetLevelLeaves(u, Later(s, 2), LevelOf(u, u.world.memory(p.tick + 1), LimitAt(u, s.control, p.tick + 2)));
    SteadyTwice(a.pool.entries, p.entries, b.pool.entries, r.marked);
  }

  lemma SettingsLeave(u: Setup, a: Snap, op: Op, how: How, b: Snap)
    requires op.AcquireLease? || op.ReleaseLease? || op.Worker? || op.Guard? || op.Start? || op.Stop?
    requires Safe(a) && Stepped(u, a, op, how, b)
    ensures Steady(a.pool.entries, b.pool.entries, {}) && b.pool.loads == a.pool.loads && b.pool.lost == a.pool.lost
  {
    hide Heard, Consistent, Propagate;
    if op.AcquireLease? { PropagateLeaves(u, a.(control := a.control.(lease := op.bytes))); }
    if op.ReleaseLease? { PropagateLeaves(u, a.(control := a.control.(lease := 0, bound := false))); }
    if op.Guard? { PropagateLeaves(u, a.(control := a.control.(guard := op.on))); }
    if op.Start? { PropagateLeaves(u, a.(control := a.control.(running := true))); }
  }

  /** A load in progress that was asked to abort. */
  ghost predicate Asked(s: State, k: Object) { k in s.loads && LoadFits(s, k) && Own(s, k).abortLoading }

  lemma SteadyAsks(a: State, b: State, k: Object, marked: set<string>)
    requires Consistent(a) && Consistent(b) && k in a.loads && k in b.loads && b.loads[k] == a.loads[k]
    requires Steady(a.entries, b.entries, marked)
    ensures Asked(b, k) <==> Asked(a, k) || (a.loads[k].orphan.None? && k.0 in marked)
  {
    assert LoadFits(a, k) && LoadFits(b, k);
    if a.loads[k].orphan.None? { assert EntryFits(a, k.0); }
  }

  /** A load that goes on keeps its request to abort when another one, or a wait of its own, ends. */
  lemma StartOverAsks(u: Setup, a: Snap, k: Object, other: Object)
    requires Safe(a) && k in a.pool.loads && a.pool.loads[k].stage.Starting? && LoadFits(a.pool, k)
    requires other in a.pool.loads && other in StartEnds(a.pool, u.world, k).loads
    ensures Asked(StartEnded(u, a, k).pool, other) <==> Asked(a.pool, other)
  {
    assert LoadFits(a.pool, other);
    StartEndsKeeps(a.pool, u.world, k);
    var t := a.(pool := StartEnds(a.pool, u.world, k));
    assert LoadFits(t.pool, other);
    assert Asked(t.pool, other) <==> Asked(a.pool, other);
    PropagateAsks(u, t, other);
    hide LoadedSize, Boot, Propagate, LoadFits, EntryFits, StartEnds, Consistent, Asked;
  }

  lemma PropagateAsks(u: Setup, s: Snap, k: Object)
    requires Consistent(s.pool) && k in s.pool.loads
    ensures k in Propagate(u, s).pool.loads && (Asked(Propagate(u, s).pool, k) <==> Asked(s.pool, k))
  {
    PropagateLeaves(u, s);
    PropagateKeeps(u, s);
    hide LoadedSize, Propagate, Consistent, Asked;
    SteadyAsks(s.pool, Propagate(u, s).pool, k, {});
  }

  lemma DraftOverAsks(u: Setup, a: Snap, k: Object, other: Object)
    requires Safe(a) && k in a.pool.loads && a.pool.loads[k].stage.Drafting? && other in a.pool.loads
    ensures Asked(Propagate(u, a.(pool := DraftEnds(a.pool, k))).pool, other) <==> Asked(a.pool, other)
  {
    DraftEndsKeeps(a.pool, k);
    assert LoadFits(a.pool, other) && LoadFits(DraftEnds(a.pool, k), other);
    assert Asked(DraftEnds(a.pool, k), other) <==> Asked(a.pool, other);
    hide LoadedSize, Propagate, Consistent, Asked, DraftEnds;
    PropagateAsks(u, a.(pool := DraftEnds(a.pool, k)), other);
  }

  lemma LoadOverAsks(a: Snap, k: Object, other: Object)
    requires Safe(a) && k in a.pool.loads && LoadFits(a.pool, k) && other in a.pool.loads && other != k
    ensures Asked(LoadEnds(a.pool, k), other) <==> Asked(a.pool, other)
  {
    LoadEndsKeeps(a.pool, k);
    assert LoadFits(a.pool, other) && LoadFits(LoadEnds(a.pool, k), other);
    hide LoadedSize;
  }

  predicate AboutLoads(op: Op) { op.StartOver? || op.DraftOver? || op.LoadOver? || op.Reload? || op.Discover? }

  function MarkedBy(op: Op, how: How): set<string> { if op.EndTick? && how.Eased? then how.relief.marked else {} }

  lemma StepLeaves(u: Setup, a: Snap, op: Op, how: How, b: Snap)
    requires Safe(a) && Enabled(op, a) && Stepped(u, a, op, how, b) && !AboutLoads(op)
    ensures Steady(a.pool.entries, b.pool.entries, MarkedBy(op, how)) && b.pool.lost == a.pool.lost
    ensures forall k <- a.pool.loads :: k in b.pool.loads && b.pool.loads[k] == a.pool.loads[k]
  {
    hide Heard, LoadedSize, Consistent, Got, TtlChecked, TickEnded, Propagate;
    match op
    case Get(id, forceLm) =>
      GotKeeps(u.world, a.pool, id, forceLm, how.admission, how.answer, b.pool);
      GotLeaves(u.world, a.pool, id, forceLm, how.admission, how.answer, b.pool);
    case UnloadNow(id) =>
    case Ttl(ttl, fallback) =>
      TtlKeeps(u.world, a.pool, ttl, fallback, how.gone, how.at, b.pool);
      TtlLeaves(u.world, a.pool, ttl, fallback, how.gone, how.at, b.pool);
    case BeginTick => BeginTickLeaves(u, a);
    case EndTick => EndTickLeaves(u, a, how.relief, b);
    case Pin(id, pinned) =>
    case Shutdown =>
    case _ => SettingsLeave(u, a, op, how, b);
  }

  /** Which loads are asked to abort: those whose entry is being loaded, without the lock, when a tick
      at hard pressure finds nothing to evict; and they stay asked to. */
  lemma AskedIsExact(u: Setup, a: Snap, op: Op, how: How, b: Snap, k: Object)
    requires Safe(a) && Enabled(op, a) && Stepped(u, a, op, how, b) && k in a.pool.loads && k in b.pool.loads
    ensures Asked(b.pool, k) <==>
      Asked(a.pool, k) || (op.EndTick? && a.pool.loads[k].orphan.None? && k.0 in how.relief.marked)
    ensures Asked(b.pool, k) ==> !b.pool.loads[k].locked
  {
    StepKeepsSafe(u, a, op, how, b);
    hide Stepped, Heard, Consistent, Asked;
    AskedUnlocked(b.pool, k);
    AskedGoesOn(u, a, op, how, b, k);
  }

  lemma AskedUnlocked(s: State, k: Object)
    requires Consistent(s) && k in s.loads
    ensures Asked(s, k) ==> !s.loads[k].locked
  {
    assert LoadFits(s, k);
    if s.loads[k].orphan.None? { assert EntryFits(s, k.0); }
  }

  lemma ReloadAsks(s: State, id: string, k: Object)
    requires Consistent(s) && k in s.loads
    ensures var t := PoolState.Reload(s, id).1; k in t.loads && (Asked(t, k) <==> Asked(s, k))
  {
    ReloadKeeps(s, id);
    var t := PoolState.Reload(s, id).1;
    assert LoadFits(s, k);
    if k.0 in s.entries { assert EntryFits(s, k.0); }
    if id in s.entries { assert EntryFits(s, id); }
    hide LoadedSize;
    SteadyAsks(s, t, k, {});
  }

  lemma DiscoverAsks(s: State, d: Discovery, k: Object)
    requires Consistent(s) && k in s.loads
    ensures LoadFits(s, k) && forall l <- s.loads :: LoadFits(s, l)
    ensures var t := PoolState.Discover(s, d); k in t.loads && (Asked(t, k) <==> Asked(s, k))
  {
    DiscoverKeeps(s, d);
    assert LoadFits(s, k);
    assert LoadFits(PoolState.Discover(s, d), k);
    hide LoadedSize, Discovered;
  }

  lemma AskedGoesOn(u: Setup, a: Snap, op: Op, how: How, b: Snap, k: Object)
    requires Safe(a) && Safe(b) && Enabled(op, a) && Stepped(u, a, op, how, b) && k in a.pool.loads && k in b.pool.loads
    ensures Asked(b.pool, k) <==>
      Asked(a.pool, k) || (op.EndTick? && a.pool.loads[k].orphan.None? && k.0 in how.relief.marked)
  {
    if !AboutLoads(op) {
      StepLeaves(u, a, op, how, b);
      hide Stepped, Heard, Consistent;
      SteadyAsks(a.pool, b.pool, k, MarkedBy(op, how));
    } else {
      hide LoadedSize, EntryFits, LoadFits, Heard, Consistent, Asked;
      if op.StartOver? { StartOverAsks(u, a, op.load, k); }
      if op.DraftOver? { DraftOverAsks(u, a, op.load, k); }
      if op.LoadOver? { LoadOverAsks(a, op.load, k); }
      if op.Reload? { ReloadAsks(a.pool, op.id, k); }
      if op.Discover? { DiscoverAsks(a.pool, op.discovery, k); }
    }
  }

  /** A load whose entry object is gone comes to an engine of some size. */
  predicate Loses(u: Setup, s: Snap, op: Op) {
    op.StartOver? && op.load in s.pool.loads && s.pool.loads[op.load].stage.Starting? && s.pool.loads[op.load].orphan.Some?
    && Completes(s.pool, u.world, op.load)
    && Own(s.pool, op.load).size > 0
  }

  lemma LossIsExact(u: Setup, a: Snap, op: Op, how: How, b: Snap)
    requires Safe(a) && Enabled(op, a) && Stepped(u, a, op, how, b)
    ensures b.pool.lost == a.pool.lost + if Loses(u, a, op) then Own(a.pool, op.load).size else 0
  {
    if !AboutLoads(op) {
      StepLeaves(u, a, op, how, b);
      hide Stepped, Heard, Consistent;
    } else {
      hide LoadedSize, EntryFits, Heard, Consistent, Boot, Discovered, LimitAt;
    }
  }

  // ---------- whole runs ----------

  ghost predicate Next(u: Setup, a: Snap, op: Op, how: How, b: Snap) {
    if Enabled(op, a) then Stepped(u, a, op, how, b) else how == Plain && b == a
  }

  /** Operation after operation; what is not enabled is passed over. */
  ghost predicate Run(u: Setup, trace: seq<Snap>, ops: seq<Op>, hows: seq<How>) {
    && |trace| == |ops| + 1 && |hows| == |ops|
    && forall i :: 0 <= i < |ops| ==> Next(u, trace[i], ops[i], hows[i], trace[i + 1])
  }

  /** Whatever the order of operations, and whatever is measured, every state of a run is safe. */
  lemma {:induction false} RunIsSafe(u: Setup, trace: seq<Snap>, ops: seq<Op>, hows: seq<How>, i: nat)
    requires Run(u, trace, ops, hows) && Safe(trace[0]) && i <= |ops|
    ensures Safe(trace[i])
  {
    if i > 0 {
      RunIsSafe(u, trace, ops, hows, i - 1);
      assert Next(u, trace[i - 1], ops[i - 1], hows[i - 1], trace[i]);
      hide Safe, Stepped;
      if Enabled(ops[i - 1], trace[i - 1]) { StepKeepsSafe(u, trace[i - 1], ops[i - 1], hows[i - 1], trace[i]); }
    }
  }

  lemma LossOf(u: Setup, a: Snap, op: Op, how: How, b: Snap)
    requires Safe(a) && Next(u, a, op, how, b)
    ensures b.pool.lost == 0 <==> a.pool.lost == 0 && !Loses(u, a, op)
  {
    hide Safe, Stepped, Completes, Own;
    if Enabled(op, a) { LossIsExact(u, a, op, how, b); }
  }

  lemma {:induction false} LossSoFar(u: Setup, trace: seq<Snap>, ops: seq<Op>, hows: seq<How>, n: nat)
    requires Run(u, trace, ops, hows) && Safe(trace[0]) && trace[0].pool.lost == 0 && n <= |ops|
    ensures trace[n].pool.lost == 0 <==> forall i :: 0 <= i < n ==> !Loses(u, trace[i], ops[i])
  {
    if n > 0 {
      LossSoFar(u, trace, ops, hows, n - 1);
      RunIsSafe(u, trace, ops, hows, n - 1);
      var a, op, how, b := trace[n - 1], ops[n - 1], hows[n - 1], trace[n];
      assert Next(u, a, op, how, b);
      hide Run, Safe, Next, Loses;
      LossOf(u, a, op, how, b);
    }
  }

  /** The memory counter is the size of what is loaded, throughout a run, if and only if no load ends
      with an engine after a discovery has taken its entry away. */
  lemma CounterIsExact(u: Setup, trace: seq<Snap>, ops: seq<Op>, hows: seq<How>)
    requires Run(u, trace, ops, hows) && Safe(trace[0]) && trace[0].pool.lost == 0
    ensures (forall i :: 0 <= i <= |ops| ==> trace[i].pool.memory == LoadedSize(trace[i].pool.entries))
       <==> (forall i :: 0 <= i < |ops| ==> !Loses(u, trace[i], ops[i]))
  {
    forall i | 0 <= i <= |ops|
      ensures trace[i].pool.memory == LoadedSize(trace[i].pool.entries) <==> trace[i].pool.lost == 0
    {
      RunIsSafe(u, trace, ops, hows, i);
    }
    hide *;
    if forall i :: 0 <= i < |ops| ==> !Loses(u, trace[i], ops[i]) {
      forall i | 0 <= i <= |ops| ensures trace[i].pool.lost == 0 { LossSoFar(u, trace, ops, hows, i); }
    } else {
      LossSoFar(u, trace, ops, hows, |ops|);
    }
  }

  /** A load that is asked to abort before its engine has started registers nothing, however long it
      takes and whatever happens meanwhile: it fails, or leaves with nothing to show. */
  lemma AskedNeverCompletes(u: Setup, trace: seq<Snap>, ops: seq<Op>, hows: seq<How>, i: nat, j: nat, k: Object)
    requires Run(u, trace, ops, hows) && Safe(trace[0]) && i <= j < |ops|
    requires Asked(trace[i].pool, k) && (forall m :: i <= m <= j ==> k in trace[m].pool.loads)
    requires ops[j] == StartOver(k) && Enabled(ops[j], trace[j])
    ensures var (s, t) := (trace[j].pool, trace[j + 1].pool);
      && t.memory == s.memory && LoadedIds(t.entries) == LoadedIds(s.entries)
      && hows[j].Begun? && (hows[j].failure.Some? || (k in t.loads && LoadAnswer(t, k) == LoadAborted))
  {
    RunIsSafe(u, trace, ops, hows, j);
    StaysAsked(u, trace, ops, hows, i, j, k);
    assert Next(u, trace[j], ops[j], hows[j], trace[j + 1]);
    assert !Completes(trace[j].pool, u.world, k);
    hide Heard, Consistent, LoadFits, Run, Completes, Boot, Booted;
    MarkedLoadAborts(trace[j].pool, u.world, k);
  }

  lemma {:induction false} StaysAsked(u: Setup, trace: seq<Snap>, ops: seq<Op>, hows: seq<How>, i: nat, j: nat, k: Object)
    requires Run(u, trace, ops, hows) && Safe(trace[0]) && i <= j <= |ops|
    requires Asked(trace[i].pool, k) && forall m :: i <= m <= j ==> k in trace[m].pool.loads
    ensures Asked(trace[j].pool, k)
  {
    hide Run, Safe, Next, Asked;
    if i < j {
      RunNext(u, trace, ops, hows, j - 1);
      StaysAsked(u, trace, ops, hows, i, j - 1, k);
      RunIsSafe(u, trace, ops, hows, j - 1);
      NextAsked(u, trace[j - 1], ops[j - 1], hows[j - 1], trace[j], k);
    }
  }

  lemma RunNext(u: Setup, trace: seq<Snap>, ops: seq<Op>, hows: seq<How>, i: nat)
    requires Run(u, trace, ops, hows) && i < |ops|
    ensures |trace| == |ops| + 1 && |hows| == |ops| && Next(u, trace[i], ops[i], hows[i], trace[i + 1])
  {
  }

  lemma NextAsked(u: Setup, a: Snap, op: Op, how: How, b: Snap, k: Object)
    requires Safe(a) && Next(u, a, op, how, b) && Asked(a.pool, k) && k in b.pool.loads
    ensures Asked(b.pool, k)
  {
    assert k in a.pool.loads;
    hide Safe, Stepped, Asked;
    if Enabled(op, a) { AskedIsExact(u, a, op, how, b, k); }
  }

  // ---------- the pool and its enforcer as they run ----------

  method Perform(pool: Pool, enforcer: MemoryEnforcer, op: Op) returns (ghost how: How)
    requires pool.Valid() && enforcer.pool == pool && Enabled(op, enforcer.Now())
    modifies pool, enforcer
    ensures pool.Valid() && Stepped(enforcer.Plan(), old(enforcer.Now()), op, how, enforcer.Now())
  {
    hide Consistent, Got, TtlChecked, ShutDown, TickEnded, Propagate, StartEnds, DraftEnds, LoadEnds,
      StartAnswer, LoadAnswer, Completes, Unload,
      PoolState.Discover, PoolState.Reload, Enforcer.BeginTick, LoadFits;
    how := Plain;
    match op
    case Get(id, forceLm) =>
      var answer;
      ghost var adm;
      answer, adm := pool.GetEngine(id, forceLm);
      how := Fetched(adm, answer);
    case StartOver(k) =>
      var failure, tell := pool.StartOver(k);
      if tell { enforcer.PropagateMemoryLimit(); }
      how := Begun(failure);
    case DraftOver(k) =>
      pool.DraftOver(k);
      enforcer.PropagateMemoryLimit();
    case LoadOver(k) =>
      var answer := pool.LoadOver(k);
      how := Loaded(answer);
    case Reload(id) =>
      var answer := pool.ReloadEngine(id);
      how := Reloaded(answer);
    case UnloadNow(id) => pool.UnloadEngine(id);
    case Ttl(ttl, fallback) =>
      var gone;
      ghost var at;
      gone, at := pool.CheckTtl(ttl, fallback);
      how := Checked(gone, at);
    case BeginTick => enforcer.BeginCheck();
    case EndTick =>
      ghost var relief := enforcer.EndCheck();
      how := Eased(relief);
    case Discover(d) => pool.DiscoverModels(d);
    case Pin(id, pinned) =>
      var known := pool.Pin(id, pinned);
      how := Known(known);
    case Shutdown => pool.Shutdown();
    case Worker(bound) => enforcer.SetVideoWorker(bound);
    case Stop => enforcer.Stop();
    case _ => how := PerformSetting(pool, enforcer, op);
  }

  method PerformSetting(pool: Pool, enforcer: MemoryEnforcer, op: Op) returns (ghost how: How)
    requires op.AcquireLease? || op.ReleaseLease? || op.Guard? || op.Start?
    requires pool.Valid() && enforcer.pool == pool
    modifies pool, enforcer
    ensures pool.Valid() && Stepped(enforcer.Plan(), old(enforcer.Now()), op, how, enforcer.Now())
  {
    hide Consistent, Acquired, Released, Guarded, Started, Bound, Halted;
    how := Plain;
    match op
    case AcquireLease(bytes) =>
      var result := enforcer.AcquireVideoLease(bytes);
      how := Leased(result);
    case ReleaseLease => enforcer.ReleaseVideoLease();
    case Guard(on) => enforcer.SetGuard(on);
    case Start => enforcer.Start();
  }

  function FirstSnap(): Snap {
    Snap(State(0, map[], 0, 0, map[], None, 0), Control(true, false, Ok, 0, 0, false, None, false))
  }

  /** Such a loss does happen, in a run of a new pool: a model is requested, its folder is gone while its
      engine starts, and its size stays in the counter though nothing is loaded, or even known. */
  lemma LossHappens(u: Setup, id: string, found: Found) returns (trace: seq<Snap>, ops: seq<Op>, hows: seq<How>)
    requires found.model.Llm? && found.kind.Batched? && u.world.ceiling(1) <= 0 && u.world.starts(2, 0)
    ensures ops == [Op.Discover(Discovery(map[id := found], {})), Get(id, false),
                    Op.Discover(Discovery(map[], {})), Op.StartOver((id, 1))]
    ensures Run(u, trace, ops, hows) && trace[0] == FirstSnap()
    ensures var last := trace[|ops|].pool; last.entries == map[] && last.memory == last.lost == found.size
  {
    hide Discovered, Next, StartEnded, StartAnswer;
    var k := (id, 1);
    var e := Entry(Llm, Batched, found.size, None, 0, false, false, false, 1);
    var c := Control(true, false, Ok, 0, 0, false, None, false);
    var s0 := Snap(State(0, map[], 0, 0, map[], None, 0), c);
    var s1 := Snap(State(0, map[id := e], 0, 1, map[], None, 0), c);
    var s2 := Snap(BeginLoad(s1.pool.(tick := 1), id, false, true), c);
    var s3 := Snap(State(1, map[], 0, 2, map[k := Load(false, true, Starting, Some(e.(loading := true)))], Some(k), 0), c);
    assert s0 == FirstSnap();
    FindsModel(u, s0, s1, id, found);
    RequestsModel(u, s1, s2, id);
    LosesModel(u, s2, s3, id);
    StartsLost(u, s3, id, found.size);
    trace := [s0, s1, s2, s3, StartEnded(u, s3, k)];
    ops := [Op.Discover(Discovery(map[id := found], {})), Get(id, false), Op.Discover(Discovery(map[], {})), Op.StartOver(k)];
    hows := [Plain, Fetched(Admission([], [], None), None), Plain, Begun(StartAnswer(s3.pool, u.world, k))];
  }

  lemma FindsModel(u: Setup, s: Snap, t: Snap, id: string, found: Found)
    requires found.model.Llm? && found.kind.Batched? && s.pool == State(0, map[], 0, 0, map[], None, 0)
    requires t == s.(pool := State(0, map[id := Entry(Llm, Batched, found.size, None, 0, false, false, false, 1)], 0, 1, map[], None, 0))
    ensures Next(u, s, Op.Discover(Discovery(map[id := found], {})), Plain, t)
  {
    DiscoversOne(id, found);
    hide Discovered;
  }

  lemma RequestsModel(u: Setup, s: Snap, t: Snap, id: string)
    requires id in s.pool.entries && MayLoad(s.pool, id, true) && !JobManaged(s.pool.entries[id]) && u.world.ceiling(s.pool.tick + 1) <= 0
    requires t == s.(pool := BeginLoad(s.pool.(tick := s.pool.tick + 1), id, false, true))
    ensures Next(u, s, Get(id, false), Fetched(Admission([], [], None), None), t)
  {
    StartsToLoad(u.world, s.pool, id, t.pool);
    hide Got, BeginLoad;
  }

  lemma LosesModel(u: Setup, s: Snap, t: Snap, id: string)
    requires s.pool.entries.Keys == {id} && s.pool.entries[id].engine.None? && s.pool.discoveries == 1
    requires var k := (id, 1);
      s.pool.loads.Keys == {k} && LoadFits(s.pool, k) && s.pool.loads[k].orphan.None?
      && t == s.(pool := s.pool.(entries := map[], discoveries := 2,
                                 loads := map[k := s.pool.loads[k].(orphan := Some(s.pool.entries[id]))]))
    ensures Next(u, s, Op.Discover(Discovery(map[], {})), Plain, t)
  {
    DiscoversNone(s.pool, Discovery(map[], {}));
    hide Discovered;
    assert forall l <- s.pool.loads :: l == (id, 1);
    assert PoolState.Discover(s.pool, Discovery(map[], {})).loads == t.pool.loads;
  }

  lemma StartsLost(u: Setup, s: Snap, id: string, size: nat)
    requires var k := (id, 1);
      k in s.pool.loads && LoadFits(s.pool, k) && s.pool.loads[k].stage.Starting? && s.pool.loads[k].orphan.Some?
      && s.pool.loads[k].orphan.value.kind.Batched? && s.pool.loads[k].orphan.value.size == size
      && !s.pool.loads[k].orphan.value.abortLoading
    requires s.pool.entries == map[] && s.pool.memory == s.pool.lost == 0 && u.world.starts(s.pool.tick + 1, 0)
    ensures var k := (id, 1);
      var t := StartEnded(u, s, k);
      && Next(u, s, Op.StartOver(k), Begun(StartAnswer(s.pool, u.world, k)), t)
      && t.pool.entries == map[] && t.pool.memory == t.pool.lost == size
  {
    LosesIt(u, s, (id, 1), size);
    hide StartEnded, StartAnswer;
  }

  lemma DiscoversOne(id: string, found: Found)
    requires found.model.Llm? && found.kind.Batched?
    ensures Discovered(map[], Discovery(map[id := found], {}), 1)
         == map[id := Entry(Llm, Batched, found.size, None, 0, false, false, false, 1)]
  {
  }

  lemma DiscoversNone(s: State, d: Discovery)
    requires d == Discovery(map[], {}) && forall id <- s.entries :: s.entries[id].engine.None?
    ensures Discovered(s.entries, d, s.discoveries + 1) == map[]
  {
    assert Discovered(s.entries, d, s.discoveries + 1).Keys == {};
  }

  lemma StartsToLoad(w: World, s: State, id: string, t: State)
    requires id in s.entries && s.entries[id].engine.None? && !s.entries[id].loading && !JobManaged(s.entries[id])
    requires w.ceiling(s.tick + 1) <= 0 && t == BeginLoad(s.(tick := s.tick + 1), id, false, true)
    ensures Got(w, s, id, false, Admission([], [], None), None, t)
  {
    var m := s.(tick := s.tick + 1);
    WithoutNobody(s.entries);
    hide LoadedSize, BeginLoad, JobManaged;
    assert Admitted(w, Unload(s, id), id, Admission([], [], None), m);
    assert Proceeds(m, id, false, Admission([], [], None), None, t);
  }

  lemma LosesIt(u: Setup, s: Snap, k: Object, size: nat)
    requires k in s.pool.loads && s.pool.loads[k].orphan.Some? && s.pool.entries == map[] && s.pool.memory == s.pool.lost == 0
    requires var e := s.pool.loads[k].orphan.value; e.kind.Batched? && e.size == size && !e.abortLoading
    requires u.world.starts(s.pool.tick + 1, 0)
    ensures var t := StartEnded(u, s, k).pool; t.entries == map[] && t.memory == t.lost == size
  {
    var t := StartEnded(u, s, k).pool;
    hide LimitAt, Threshold;
    assert t.entries.Keys == {};
  }

  /** A pool and an enforcer through any sequence of operations. */
  method RunPool(world: World, readings: nat -> Readings, softRatio: real, hardRatio: real, custom: Option<int>, ops: seq<Op>)
    returns (enforcer: MemoryEnforcer, ghost trace: seq<Snap>, ghost hows: seq<How>)
    ensures Run(Setup(world, readings, softRatio, hardRatio, custom), trace, ops, hows)
    ensures trace[0] == FirstSnap() && trace[|ops|] == enforcer.Now()
    ensures forall i :: 0 <= i <= |ops| ==> Safe(trace[i])
  {
    hide Consistent, Safe, Run, Reached, Next;
    var pool := new Pool(world);
    enforcer := new MemoryEnforcer(pool, readings, softRatio, hardRatio, custom);
    ghost var plan := Setup(world, readings, softRatio, hardRatio, custom);
    trace, hows := [FirstSnap()], [];
    assert enforcer.Now() == FirstSnap();
    RunStarts(plan);
    hide *;
    for i := 0 to |ops|
      invariant fresh(pool) && fresh(enforcer) && enforcer.pool == pool && pool.Valid() && enforcer.Plan() == plan
      invariant Reached(plan, trace, ops[..i], hows, enforcer.Now())
    {
      ghost var before := enforcer.Now();
      ghost var how := TryOne(pool, enforcer, ops[i]);
      RunLonger(plan, trace, ops, hows, i, before, how, enforcer.Now());
      trace, hows := trace + [enforcer.Now()], hows + [how];
    }
    assert ops[..|ops|] == ops;
    AllSafe(plan, trace, ops, hows, enforcer.Now());
  }

  /** An operation, if it is enabled. */
  method TryOne(pool: Pool, enforcer: MemoryEnforcer, op: Op) returns (ghost how: How)
    requires pool.Valid() && enforcer.pool == pool
    modifies pool, enforcer
    ensures pool.Valid() && Next(enforcer.Plan(), old(enforcer.Now()), op, how, enforcer.Now())
  {
    hide Stepped, Consistent;
    how := Plain;
    if May(op, pool.lock.None?, pool.loads, enforcer.running, enforcer.waiting.Some?) {
      how := Perform(pool, enforcer, op);
    }
  }

  lemma FirstIsSafe()
    ensures Safe(FirstSnap())
  {
    assert LoadedIds(map[]) == {};
    assert LoadedSize(map[]) == 0;
    hide LoadedSize;
  }

  lemma RunStarts(u: Setup)
    ensures Reached(u, [FirstSnap()], [], [], FirstSnap())
  {
    hide Next, FirstSnap;
  }

  /** A run from the start to this state. */
  ghost predicate Reached(u: Setup, trace: seq<Snap>, ops: seq<Op>, hows: seq<How>, now: Snap) {
    Run(u, trace, ops, hows) && trace[0] == FirstSnap() && trace[|ops|] == now
  }

  lemma AllSafe(u: Setup, trace: seq<Snap>, ops: seq<Op>, hows: seq<How>, now: Snap)
    requires Reached(u, trace, ops, hows, now)
    ensures Run(u, trace, ops, hows) && trace[0] == FirstSnap() && trace[|ops|] == now
    ensures forall i :: 0 <= i <= |ops| ==> Safe(trace[i])
  {
    FirstIsSafe();
    hide Safe, Next, FirstSnap;
    forall i | 0 <= i <= |ops| ensures Safe(trace[i]) { RunIsSafe(u, trace, ops, hows, i); }
  }

  lemma RunLonger(u: Setup, trace: seq<Snap>, ops: seq<Op>, hows: seq<How>, i: nat, now: Snap, how: How, next: Snap)
    requires i < |ops| && Reached(u, trace, ops[..i], hows, now) && Next(u, now, ops[i], how, next)
    ensures Reached(u, trace + [next], ops[..i + 1], hows + [how], next)
  {
    hide Next, FirstSnap;
  }
}
