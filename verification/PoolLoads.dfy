/** Which engine a load of the pool ends with, and what the next request makes of it
    (omlx/engine_pool.py, _load_engine and get_engine). */
module PoolLoads {
  import opened Common
  import opened Limits
  import opened PoolState
  import opened PoolAdmission
  import opened EnginePool
  import opened Enforcer
  import opened PoolRuns

  /** The readings of a load that ends at this tick: a draft engine is set up, the first engine starts,
      and, if it is needed, the second one does. */
  datatype Try = Try(draft: bool, first: bool, second: bool)

  function TryAt(w: World, tick: nat, id: string): Try { Try(w.dflash(tick, id), w.starts(tick, 0), w.starts(tick, 1)) }

  /** What is tried first is the draft engine if there is one; a vision model has its vision engine next,
      or first, unless a text engine is wanted. */
  predicate Vision(kind: EngineType, forceLm: bool, t: Try) {
    kind.Vlm? && if forceLm then !t.draft && !t.first else t.draft != t.first
  }

  /** Text from a vision model, without being asked for: only its text half could be loaded. */
  predicate TextOnly(kind: EngineType, forceLm: bool, t: Try) {
    kind.Vlm? && !forceLm && !t.draft && !t.first && t.second
  }

  /** The end of a start: which engine the entry has, if any, and what the entry says it is. */
  lemma StartedAs(s: State, w: World, k: Object)
    requires Refers(s, k) && s.loads[k].orphan.None? && s.entries[k.0].engine.None? && !s.entries[k.0].abortLoading
    ensures var e, f, t := s.entries[k.0], StartEnds(s, w, k).entries[k.0], TryAt(w, s.tick + 1, k.0);
      && (f.engine.Some? <==>
            (t.draft || !e.kind.Media?) && (t.first || (t.second && (t.draft || e.kind.Vlm?))))
      && (f.engine.Some? ==> (f.engine.value.isVlm <==> Vision(e.kind, s.loads[k].forceLm, t)))
      && (f.engine.Some? ==>
            f.engine.value.scheduler == if w.schedules(s.tick + 1, k.0) then Some(Scheduler(0, 0, false)) else None)
      && (f.engine.Some? ==> f.lastAccess == w.clock(s.tick + 1))
      && (f.model, f.kind) == (if TextOnly(e.kind, s.loads[k].forceLm, t) then (Llm, Batched) else (e.model, e.kind))
      && (StartAnswer(s, w, k).None? <==> f.engine.Some?)
  {
  }

  // ---------- a load from its beginning to its end ----------

  /** A load whose engine is still starting, of an entry that is not managed by jobs. */
  ghost predicate Pending(s: State, k: Object, load: Load, kind: EngineType) {
    && load == Load(load.forceLm, true, Starting, None) && k in s.loads && s.loads[k] == load && LoadFits(s, k)
    && k.0 in s.entries && s.entries[k.0].kind == kind && !JobManaged(s.entries[k.0])
  }

  /** A request that gets no answer yet has begun such a load. */
  lemma GetBegins(w: World, s: State, id: string, forceLm: bool, adm: Admission, t: State)
    requires Consistent(s) && s.lock.None? && Got(w, s, id, forceLm, adm, None, t)
    ensures id in s.entries && id in t.entries
    ensures Pending(t, ObjectOf(t.entries, id), Load(forceLm, true, Starting, None), s.entries[id].kind)
  {
    var m: State :| Admitted(w, Unload(s, id), id, adm, m) && Proceeds(m, id, forceLm, adm, None, t);
    GotKeeps(w, s, id, forceLm, adm, None, t);
    AdmittedLeaves(w, Unload(s, id), id, adm, m);
    UnloadLeaves(s, id);
    assert id in t.entries && ObjectOf(t.entries, id) in t.loads;
    assert LoadFits(t, ObjectOf(t.entries, id));
    hide Consistent, Admitted, Got, Unload, LoadFits;
  }

  /** It stays one until its engine has started, as long as it keeps its entry. */
  lemma PendingStays(u: Setup, a: Snap, op: Op, how: How, b: Snap, k: Object, load: Load, kind: EngineType)
    requires Safe(a) && Next(u, a, op, how, b) && Pending(a.pool, k, load, kind)
    requires k in b.pool.loads && b.pool.loads[k].stage.Starting? && b.pool.loads[k].orphan.None?
    ensures Pending(b.pool, k, load, kind)
  {
    if Enabled(op, a) {
      hide Stepped, Heard, Pending;
      StepKeepsSafe(u, a, op, how, b);
      assert LoadFits(b.pool, k);
      hide Consistent, LoadFits;
      if !AboutLoads(op) { PendingElsewhere(u, a, op, how, b, k, load, kind); } else { PendingBeside(u, a, op, how, b, k, load, kind); }
    }
  }

  lemma PendingElsewhere(u: Setup, a: Snap, op: Op, how: How, b: Snap, k: Object, load: Load, kind: EngineType)
    requires Safe(a) && Enabled(op, a) && Stepped(u, a, op, how, b) && !AboutLoads(op) && Pending(a.pool, k, load, kind)
    requires k in b.pool.loads && LoadFits(b.pool, k)
    ensures Pending(b.pool, k, load, kind)
  {
    assert EntryFits(a.pool, k.0);
    hide Stepped, Heard, Consistent;
    StepLeaves(u, a, op, how, b);
  }

  lemma PendingBeside(u: Setup, a: Snap, op: Op, how: How, b: Snap, k: Object, load: Load, kind: EngineType)
    requires Safe(a) && Enabled(op, a) && Stepped(u, a, op, how, b) && AboutLoads(op) && Pending(a.pool, k, load, kind)
    requires k in b.pool.loads && LoadFits(b.pool, k) && b.pool.loads[k].stage.Starting? && b.pool.loads[k].orphan.None?
    ensures Pending(b.pool, k, load, kind)
  {
    hide Stepped, Safe, Pending, Enabled, LoadFits;
    if op.Reload? { PendingReload(u, a, op, how, b, k, load, kind); }
    if op.Discover? { DiscoveryEnds(u, a, op, how, b, k, load, kind); }
    if op.StartOver? { PendingStart(u, a, op, how, b, k, load, kind); }
    if op.DraftOver? || op.LoadOver? { PendingOver(u, a, op, how, b, k, load, kind); }
  }

  lemma PendingReload(u: Setup, a: Snap, op: Op, how: How, b: Snap, k: Object, load: Load, kind: EngineType)
    requires Safe(a) && Enabled(op, a) && Stepped(u, a, op, how, b) && op.Reload? && Pending(a.pool, k, load, kind)
    requires k in b.pool.loads && LoadFits(b.pool, k) && b.pool.loads[k].stage.Starting? && b.pool.loads[k].orphan.None?
    ensures Pending(b.pool, k, load, kind)
  {
    assert EntryFits(a.pool, k.0);
    hide LoadedSize, Heard, Consistent, EntryFits;
  }

  lemma DiscoveryEnds(u: Setup, a: Snap, op: Op, how: How, b: Snap, k: Object, load: Load, kind: EngineType)
    requires Safe(a) && Enabled(op, a) && Stepped(u, a, op, how, b) && op.Discover? && Pending(a.pool, k, load, kind)
    ensures k in b.pool.loads && b.pool.loads[k].orphan.Some?
  {
    hide Consistent, Pending, Heard, PoolState.Discover;
    DiscoveryOrphans(a.pool, op.discovery, k, load, kind);
  }

  /** A discovery takes its entry away, since there is no engine yet. */
  lemma DiscoveryOrphans(s: State, d: Discovery, k: Object, load: Load, kind: EngineType)
    requires Consistent(s) && Pending(s, k, load, kind)
    ensures k in s.loads && (forall l <- s.loads :: s.loads[l].orphan.None? ==> l.0 in s.entries)
    ensures k in PoolState.Discover(s, d).loads && PoolState.Discover(s, d).loads[k].orphan.Some?
  {
    assert EntryFits(s, k.0);
    forall l | l in s.loads ensures LoadFits(s, l) {}
    hide LoadedSize, Discovered, JobManaged;
  }

  lemma PendingStart(u: Setup, a: Snap, op: Op, how: How, b: Snap, k: Object, load: Load, kind: EngineType)
    requires Safe(a) && Enabled(op, a) && Stepped(u, a, op, how, b) && op.StartOver? && Pending(a.pool, k, load, kind)
    requires k in b.pool.loads && LoadFits(b.pool, k) && b.pool.loads[k].stage.Starting? && b.pool.loads[k].orphan.None?
    ensures Pending(b.pool, k, load, kind)
  {
    var p := StartEnds(a.pool, u.world, op.load);
    hide Heard, Consistent, Boot, Booted, Completes, Registered, Propagate, Pending;
    PendingStarted(a.pool, u.world, op.load, k, load, kind);
    hide StartEnds;
    PendingTold(u, a.(pool := p), k, load, kind);
  }

  lemma PendingStarted(s: State, w: World, other: Object, k: Object, load: Load, kind: EngineType)
    requires Pending(s, k, load, kind) && Refers(s, other) && LoadFits(s, other)
    requires k in StartEnds(s, w, other).loads && StartEnds(s, w, other).loads[k].stage.Starting?
    ensures Pending(StartEnds(s, w, other), k, load, kind)
  {
    hide Boot, Booted, Registered, Completes;
  }

  lemma PendingTold(u: Setup, s: Snap, k: Object, load: Load, kind: EngineType)
    requires Pending(s.pool, k, load, kind)
    ensures Pending(Propagate(u, s).pool, k, load, kind)
  {
    hide LimitAt, Threshold;
  }

  lemma PendingOver(u: Setup, a: Snap, op: Op, how: How, b: Snap, k: Object, load: Load, kind: EngineType)
    requires Safe(a) && Enabled(op, a) && Stepped(u, a, op, how, b) && (op.DraftOver? || op.LoadOver?) && Pending(a.pool, k, load, kind)
    requires k in b.pool.loads && LoadFits(b.pool, k) && b.pool.loads[k].stage.Starting? && b.pool.loads[k].orphan.None?
    ensures Pending(b.pool, k, load, kind)
  {
    hide LoadedSize, Heard, Consistent, LimitAt;
  }

  /** A load with its engine registered. */
  ghost predicate Standing(s: State, k: Object, isVlm: bool) {
    && k in s.loads && s.loads[k].locked && s.loads[k].orphan.None? && LoadFits(s, k)
    && s.entries[k.0].engine.Some? && s.entries[k.0].engine.value.isVlm == isVlm && !JobManaged(s.entries[k.0])
  }

  lemma PropagateStands(u: Setup, s: Snap, k: Object, isVlm: bool)
    requires Standing(s.pool, k, isVlm)
    ensures Standing(Propagate(u, s).pool, k, isVlm)
    ensures Propagate(u, s).pool.entries[k.0].model == s.pool.entries[k.0].model
    ensures Propagate(u, s).pool.entries[k.0].kind == s.pool.entries[k.0].kind
  {
    hide LimitAt, Threshold;
  }

  lemma StartStands(u: Setup, a: Snap, how: How, b: Snap, k: Object, load: Load, kind: EngineType)
    requires Safe(a) && Pending(a.pool, k, load, kind) && Next(u, a, Op.StartOver(k), how, b)
    ensures var t := TryAt(u.world, a.pool.tick + 1, k.0);
      k in b.pool.loads ==>
        && Standing(b.pool, k, Vision(kind, load.forceLm, t))
        && (b.pool.entries[k.0].kind == if TextOnly(kind, load.forceLm, t) then Batched else kind)
        && (b.pool.entries[k.0].model == if TextOnly(kind, load.forceLm, t) then Llm else a.pool.entries[k.0].model)
  {
    var p, t := StartEnds(a.pool, u.world, k), TryAt(u.world, a.pool.tick + 1, k.0);
    PendingIsNew(a.pool, k, load, kind);
    hide LoadedSize, Consistent, Heard, Boot, Booted, Completes, Registered, Vision, TextOnly, JobManaged, Propagate;
    StartEndsKeeps(a.pool, u.world, k);
    StartedAs(a.pool, u.world, k);
    if k in p.loads {
      assert LoadFits(p, k) by { FitsIn(p, k); }
      StartedStands(a.pool, u.world, k);
      hide StartEnds, Standing;
      PropagateStands(u, a.(pool := p), k, Vision(kind, load.forceLm, t));
    }
  }

  lemma PendingIsNew(s: State, k: Object, load: Load, kind: EngineType)
    requires Consistent(s) && Pending(s, k, load, kind)
    ensures s.entries[k.0].engine.None? && !s.entries[k.0].abortLoading
  {
    assert EntryFits(s, k.0);
  }

  lemma FitsIn(s: State, k: Object)
    requires Consistent(s) && k in s.loads
    ensures LoadFits(s, k)
  {
  }

  lemma StartedStands(s: State, w: World, k: Object)
    requires Refers(s, k) && s.loads[k].locked && s.loads[k].orphan.None? && s.entries[k.0].engine.None?
    requires !s.entries[k.0].abortLoading && !JobManaged(s.entries[k.0])
    requires k in StartEnds(s, w, k).loads && LoadFits(StartEnds(s, w, k), k)
    ensures Standing(StartEnds(s, w, k), k, Vision(s.entries[k.0].kind, s.loads[k].forceLm, TryAt(w, s.tick + 1, k.0)))
  {
  }

  lemma DraftStands(u: Setup, a: Snap, how: How, b: Snap, k: Object, isVlm: bool)
    requires Standing(a.pool, k, isVlm) && Next(u, a, Op.DraftOver(k), how, b)
    ensures Standing(b.pool, k, isVlm)
    ensures b.pool.entries[k.0].kind == a.pool.entries[k.0].kind && b.pool.entries[k.0].model == a.pool.entries[k.0].model
  {
    if Enabled(Op.DraftOver(k), a) {
      hide Propagate, JobManaged;
      PropagateStands(u, a.(pool := DraftEnds(a.pool, k)), k, isVlm);
    }
  }

  /** Answered from the engine that is there, at no other cost than a new time of access. */
  ghost predicate AtOnce(s: State, id: string, engine: Engine, how: How, t: State) {
    && how.Fetched? && how.answer == Some(Ready(engine)) && t.memory == s.memory && t.loads == s.loads
    && t.entries.Keys == s.entries.Keys && forall o <- s.entries :: t.entries[o].engine == s.entries[o].engine
  }

  /** Unloaded first, and not answered from the engine that was there. */
  ghost predicate Anew(id: string, how: How, t: State) {
    && how.Fetched? && (how.answer.Some? ==> !how.answer.value.Ready?) && id in t.entries && t.entries[id].engine.None?
  }

  /** The end of a load, and the same request right after it. */
  lemma OverThenAgain(u: Setup, a: Snap, over: How, b: Snap, again: How, c: Snap, k: Object, forceLm: bool, isVlm: bool)
    requires Safe(a) && Standing(a.pool, k, isVlm) && Next(u, a, Op.LoadOver(k), over, b)
    requires over.Loaded? && over.outcome.Ready? && Next(u, b, Get(k.0, forceLm), again, c)
    ensures over.outcome.engine.isVlm == isVlm && Some(over.outcome.engine) == b.pool.entries[k.0].engine
    ensures b.pool.entries[k.0].kind == a.pool.entries[k.0].kind && b.pool.entries[k.0].model == a.pool.entries[k.0].model
    ensures if forceLm && isVlm then Anew(k.0, again, c.pool) else AtOnce(b.pool, k.0, over.outcome.engine, again, c.pool)
  {
    assert b.pool.lock.None?;
    LoadOverSafe(a, k);
    if forceLm && isVlm {
      assert Got(u.world, b.pool, k.0, forceLm, again.admission, again.answer, c.pool);
      assert !Serves(b.pool.entries, k.0, forceLm);
      hide Consistent, Heard, Got, JobManaged, LoadFits, Shrunk;
      UnloadsFirst(u.world, b.pool, k.0, forceLm, again.admission, again.answer, c.pool);
    } else {
      hide Consistent, Heard, JobManaged, LoadFits;
    }
  }

  lemma UnloadsFirst(w: World, s: State, id: string, forceLm: bool, adm: Admission, answer: Option<Answer>, t: State)
    requires Consistent(s) && s.lock.None? && Got(w, s, id, forceLm, adm, answer, t)
    requires id in s.entries && !JobManaged(s.entries[id]) && !Serves(s.entries, id, forceLm)
    ensures answer.Some? ==> !answer.value.Ready?
    ensures id in t.entries && t.entries[id].engine.None?
  {
    GotKeeps(w, s, id, forceLm, adm, answer, t);
    var m: State :| Admitted(w, Unload(s, id), id, adm, m) && Proceeds(m, id, forceLm, adm, answer, t);
    hide Consistent, Admitted, Got, Unload, Ids;
  }

  lemma {:induction false} PendingUntil(u: Setup, trace: seq<Snap>, ops: seq<Op>, hows: seq<How>, i: nat, j: nat, k: Object,
                                        load: Load, kind: EngineType)
    requires Run(u, trace, ops, hows) && Safe(trace[0]) && i <= j <= |ops| && Pending(trace[i].pool, k, load, kind)
    requires forall m :: i <= m <= j ==> Underway(trace[m].pool, k)
    ensures Pending(trace[j].pool, k, load, kind)
  {
    hide Run, Safe, Next, Pending;
    if i < j {
      RunNext(u, trace, ops, hows, j - 1);
      PendingUntil(u, trace, ops, hows, i, j - 1, k, load, kind);
      RunIsSafe(u, trace, ops, hows, j - 1);
      assert Underway(trace[j].pool, k);
      PendingStays(u, trace[j - 1], ops[j - 1], hows[j - 1], trace[j], k, load, kind);
    }
  }

  /** The engine of this load is still starting, and no discovery has taken its entry away. */
  ghost predicate Underway(s: State, k: Object) { k in s.loads && s.loads[k].stage.Starting? && s.loads[k].orphan.None? }

  /** From the request at i, whose load has its engine at j, to the end of that load at m, by way of its
      drafter if there is one. */
  ghost predicate Served(trace: seq<Snap>, ops: seq<Op>, hows: seq<How>, i: nat, j: nat, m: nat, id: string, forceLm: bool) {
    && |trace| == |ops| + 1 && |hows| == |ops| && i < j < m < |ops| && id in trace[i].pool.entries && id in trace[i + 1].pool.entries
    && Enabled(ops[i], trace[i]) && ops[i] == Get(id, forceLm) && hows[i].Fetched? && hows[i].answer.None?
    && var k := ObjectOf(trace[i + 1].pool.entries, id);
    && (forall n :: i < n <= j ==> Underway(trace[n].pool, k)) && ops[j] == Op.StartOver(k)
    && (m == j + 1 || (m == j + 2 && ops[j + 1] == Op.DraftOver(k)))
    && ops[m] == Op.LoadOver(k) && hows[m].Loaded? && hows[m].outcome.Ready?
  }

  lemma GetNext(u: Setup, a: Snap, id: string, forceLm: bool, how: How, b: Snap)
    requires Safe(a) && Enabled(Get(id, forceLm), a) && Next(u, a, Get(id, forceLm), how, b) && how.Fetched? && how.answer.None?
    ensures id in a.pool.entries && id in b.pool.entries
    ensures Pending(b.pool, ObjectOf(b.pool.entries, id), Load(forceLm, true, Starting, None), a.pool.entries[id].kind)
  {
    hide Got, Pending, Consistent;
    GetBegins(u.world, a.pool, id, forceLm, how.admission, b.pool);
  }

  lemma OverNext(u: Setup, a: Snap, k: Object, how: How, b: Snap)
    requires Next(u, a, Op.LoadOver(k), how, b) && how.Loaded?
    ensures k in a.pool.loads
  {
  }

  lemma DraftNext(u: Setup, a: Snap, k: Object, how: How, b: Snap)
    requires Next(u, a, Op.DraftOver(k), how, b) && k in b.pool.loads
    ensures k in a.pool.loads
  {
  }

  /** Registered with the engine of this try, and labelled by it. */
  ghost predicate Ended(s: State, k: Object, kind: EngineType, forceLm: bool, t: Try, model: ModelType) {
    && Standing(s, k, Vision(kind, forceLm, t))
    && s.entries[k.0].kind == (if TextOnly(kind, forceLm, t) then Batched else kind)
    && s.entries[k.0].model == (if TextOnly(kind, forceLm, t) then Llm else model)
  }

  /** The start of an engine, and the end of the wait for a drafter if there was one. */
  lemma StartToEnd(u: Setup, a: Snap, start: How, b: Snap, draft: How, c: Snap, drafted: bool, k: Object, load: Load, kind: EngineType)
    requires Safe(a) && Pending(a.pool, k, load, kind) && Next(u, a, Op.StartOver(k), start, b)
    requires (if drafted then Next(u, b, Op.DraftOver(k), draft, c) else b == c) && k in c.pool.loads
    ensures k.0 in a.pool.entries
    ensures Ended(c.pool, k, kind, load.forceLm, TryAt(u.world, a.pool.tick + 1, k.0), a.pool.entries[k.0].model)
  {
    var t := TryAt(u.world, a.pool.tick + 1, k.0);
    assert k.0 in a.pool.entries;
    hide Next, Pending, Standing, Safe, Vision, TextOnly;
    if drafted { DraftNext(u, b, k, draft, c); }
    StartStands(u, a, start, b, k, load, kind);
    if drafted { DraftStands(u, b, draft, c, k, Vision(kind, load.forceLm, t)); }
  }

  /** The engine of this load when it ends. */
  lemma ServedStands(u: Setup, trace: seq<Snap>, ops: seq<Op>, hows: seq<How>, i: nat, j: nat, m: nat, id: string, forceLm: bool)
    requires Run(u, trace, ops, hows) && Safe(trace[0]) && Served(trace, ops, hows, i, j, m, id, forceLm)
    ensures Safe(trace[m]) && id in trace[j].pool.entries
    ensures Ended(trace[m].pool, ObjectOf(trace[i + 1].pool.entries, id), trace[i].pool.entries[id].kind, forceLm,
                  TryAt(u.world, trace[j].pool.tick + 1, id), trace[j].pool.entries[id].model)
  {
    hide Run, Safe, Pending, Ended, TryAt;
    ServedBegins(u, trace, ops, hows, i, j, m, id, forceLm);
    ServedSteps(u, trace, ops, hows, i, j, m, id, forceLm);
    RunIsSafe(u, trace, ops, hows, m);
    RunIsSafe(u, trace, ops, hows, j);
    hide Served;
    StartToEnd(u, trace[j], hows[j], trace[j + 1], hows[j + 1], trace[m], m == j + 2,
               ObjectOf(trace[i + 1].pool.entries, id), Load(forceLm, true, Starting, None), trace[i].pool.entries[id].kind);
  }

  lemma ServedSteps(u: Setup, trace: seq<Snap>, ops: seq<Op>, hows: seq<How>, i: nat, j: nat, m: nat, id: string, forceLm: bool)
    requires Run(u, trace, ops, hows) && Served(trace, ops, hows, i, j, m, id, forceLm)
    ensures var k := ObjectOf(trace[i + 1].pool.entries, id);
      && k in trace[m].pool.loads && Next(u, trace[j], Op.StartOver(k), hows[j], trace[j + 1])
      && if m == j + 2 then Next(u, trace[j + 1], Op.DraftOver(k), hows[j + 1], trace[m]) else m == j + 1
  {
    hide Run, Next, Underway, Enabled;
    RunNext(u, trace, ops, hows, j);
    RunNext(u, trace, ops, hows, j + 1);
    RunNext(u, trace, ops, hows, m);
    OverNext(u, trace[m], ObjectOf(trace[i + 1].pool.entries, id), hows[m], trace[m + 1]);
  }

  lemma ServedBegins(u: Setup, trace: seq<Snap>, ops: seq<Op>, hows: seq<How>, i: nat, j: nat, m: nat, id: string, forceLm: bool)
    requires Run(u, trace, ops, hows) && Safe(trace[0]) && Served(trace, ops, hows, i, j, m, id, forceLm)
    ensures Pending(trace[j].pool, ObjectOf(trace[i + 1].pool.entries, id), Load(forceLm, true, Starting, None),
                    trace[i].pool.entries[id].kind)
  {
    var k, kind := ObjectOf(trace[i + 1].pool.entries, id), trace[i].pool.entries[id].kind;
    RunNext(u, trace, ops, hows, i);
    RunIsSafe(u, trace, ops, hows, i);
    hide Run, Next, Pending, Safe, Underway, Enabled;
    GetNext(u, trace[i], id, forceLm, hows[i], trace[i + 1]);
    PendingUntil(u, trace, ops, hows, i + 1, j, k, Load(forceLm, true, Starting, None), kind);
  }

  /** Which engine a load registers, over any run: a vision engine exactly if the model is a vision model and
      either text was not asked for and the vision engine was the first one to start, or text was asked for
      and the vision engine is the way out. The entry is relabelled exactly if only the text half loads. */
  lemma LoadedAs(u: Setup, trace: seq<Snap>, ops: seq<Op>, hows: seq<How>, i: nat, j: nat, m: nat, id: string, forceLm: bool)
    requires Run(u, trace, ops, hows) && Safe(trace[0]) && Served(trace, ops, hows, i, j, m, id, forceLm)
    ensures var kind, t, e := trace[i].pool.entries[id].kind, TryAt(u.world, trace[j].pool.tick + 1, id), trace[m + 1].pool.entries;
      && id in e && id in trace[j].pool.entries && e[id].engine == Some(hows[m].outcome.engine)
      && (hows[m].outcome.engine.isVlm <==> Vision(kind, forceLm, t))
      && (e[id].model, e[id].kind)
           == if TextOnly(kind, forceLm, t) then (Llm, Batched) else (trace[j].pool.entries[id].model, kind)
  {
    var k, kind, t := ObjectOf(trace[i + 1].pool.entries, id), trace[i].pool.entries[id].kind, TryAt(u.world, trace[j].pool.tick + 1, id);
    ServedStands(u, trace, ops, hows, i, j, m, id, forceLm);
    RunNext(u, trace, ops, hows, m);
    hide Run, Next, Standing, Safe, Vision, TextOnly, Underway;
    OverStands(u, trace[m], hows[m], trace[m + 1], k, Vision(kind, forceLm, t));
  }

  /** A request repeated right after its load is answered at once, at no cost to any other model, if and only
      if the load did not take the way out: text asked for, without a draft engine, from a vision model
      whose text half does not load. Then it unloads the engine and loads it again. */
  lemma SameRequestAgain(u: Setup, trace: seq<Snap>, ops: seq<Op>, hows: seq<How>, i: nat, j: nat, m: nat, id: string, forceLm: bool)
    requires Run(u, trace, ops, hows) && Safe(trace[0]) && Served(trace, ops, hows, i, j, m, id, forceLm)
    requires m + 1 < |ops| && ops[m + 1] == Get(id, forceLm)
    ensures var t := TryAt(u.world, trace[j].pool.tick + 1, id);
      var wayOut := forceLm && trace[i].pool.entries[id].kind.Vlm? && !t.draft && !t.first;
      && (AtOnce(trace[m + 1].pool, id, hows[m].outcome.engine, hows[m + 1], trace[m + 2].pool) <==> !wayOut)
      && (wayOut ==> Anew(id, hows[m + 1], trace[m + 2].pool))
  {
    var k, kind, t := ObjectOf(trace[i + 1].pool.entries, id), trace[i].pool.entries[id].kind, TryAt(u.world, trace[j].pool.tick + 1, id);
    ServedStands(u, trace, ops, hows, i, j, m, id, forceLm);
    RunNext(u, trace, ops, hows, m);
    RunNext(u, trace, ops, hows, m + 1);
    hide Run, Next, Standing, Safe, TextOnly, Underway;
    OverThenAgain(u, trace[m], hows[m], trace[m + 1], hows[m + 1], trace[m + 2], k, forceLm, Vision(kind, forceLm, t));
  }

  lemma OverStands(u: Setup, a: Snap, over: How, b: Snap, k: Object, isVlm: bool)
    requires Standing(a.pool, k, isVlm) && Next(u, a, Op.LoadOver(k), over, b) && over.Loaded? && over.outcome.Ready?
    ensures k.0 in b.pool.entries && b.pool.entries[k.0].engine == Some(over.outcome.engine) && over.outcome.engine.isVlm == isVlm
    ensures b.pool.entries[k.0].kind == a.pool.entries[k.0].kind && b.pool.entries[k.0].model == a.pool.entries[k.0].model
  {
    hide JobManaged;
  }
}
