/** The multi-model engine pool as it runs (omlx/engine_pool.py, EnginePool). A method that the code
    runs under the pool's lock requires it to be free; get_engine keeps it while an engine starts. */
module EnginePool {
  import opened Common
  import opened PoolState
  import opened PoolAdmission

  class Pool {
    const world: World
    var tick: nat
    var entries: map<string, Entry>
    var modelMemory: int
    var discoveries: nat
    var loads: map<Object, Load>
    var lock: Option<Object>
    ghost var lost: nat

    constructor (world: World)
      ensures Valid() && this.world == world && Now() == State(0, map[], 0, 0, map[], None, 0)
    {
      this.world := world;
      tick, entries, modelMemory, discoveries, loads, lock, lost := 0, map[], 0, 0, map[], None, 0;
    }

    ghost function Now(): State
      reads this
    {
      State(tick, entries, modelMemory, discoveries, loads, lock, lost)
    }

    ghost predicate Valid()
      reads this
    {
      Consistent(Now())
    }

    method FindLruVictim() returns (victim: Option<string>)
      ensures victim.None? ==> forall id :: !Evictable(entries, world, tick, id)
      ensures victim.Some? ==> IsVictim(entries, world, tick, victim.value)
    {
      victim := None;
      var todo := entries.Keys;
      while todo != {}
        invariant todo <= entries.Keys
        invariant victim.None? ==> forall id :: Evictable(entries, world, tick, id) ==> id in todo
        invariant victim.Some? ==> Evictable(entries, world, tick, victim.value)
        invariant victim.Some? ==> forall o ::
          Evictable(entries, world, tick, o) && o != victim.value && o !in todo ==>
            Older(Key(entries, victim.value), Key(entries, o))
      {
        var id :| id in todo;
        todo := todo - {id};
        if Evictable(entries, world, tick, id) {
          if victim.None? {
            victim := Some(id);
          } else {
            forall o: string {
              OlderOrders(Key(entries, id), Key(entries, victim.value), (if o in entries then entries[o].lastAccess else 0, o));
            }
            if Older(Key(entries, id), Key(entries, victim.value)) { victim := Some(id); }
          }
        }
      }
    }

    /** _unload_engine, including its settle barrier. */
    method UnloadEngine(id: string)
      requires Valid()
      modifies this`tick, this`entries, this`modelMemory
      ensures Valid() && Now() == Unload(old(Now()), id) && entries == Now().entries
    {
      UnloadKeeps(Now(), id);
      if id !in entries || entries[id].engine.None? { return; }
      entries := entries[id := Unloaded(entries[id])];
      tick := tick + 1;
      modelMemory := modelMemory - entries[id].size;
    }

    /** The admission loop of get_engine: evict, then shed caches twice, then decide. It ends for
        any readings: every eviction unloads an engine and caches are shed at most twice. */
    method Admit(id: string, headroom: int, ceiling: int)
      returns (v: Verdict, ghost picks: seq<Pick>, ghost sheds: seq<Shed>)
      requires Valid() && id in entries && entries[id].engine.None?
      modifies this`tick, this`entries, this`modelMemory
      ensures Concluded(world, old(Now()), id, headroom, ceiling, picks, sheds, v, Now())
    {
      ghost var start := Now();
      UnderWayStarts(world, start, id, entries[id].size + headroom, ceiling);
      picks, sheds, v := [], [], Fit(0);
      var stage, going := 0, true;
      while going
        invariant Admits(world, start, id, headroom, ceiling, picks, sheds, stage, v, going, Now())
        decreases going, Left(entries, stage)
      {
        hide *;
        going, stage, v, picks, sheds := AdmitNext(id, headroom, ceiling, stage, start, picks, sheds, v);
      }
    }

    /** One look at the memory, and what follows from it: an eviction, a shedding, or the verdict. */
    method AdmitNext(id: string, headroom: int, ceiling: int, stage: nat, ghost start: State, ghost picks: seq<Pick>,
                     ghost sheds: seq<Shed>, ghost last: Verdict)
      returns (going: bool, stage': nat, v: Verdict, ghost picks': seq<Pick>, ghost sheds': seq<Shed>)
      requires Admits(world, start, id, headroom, ceiling, picks, sheds, stage, last, true, Now())
      modifies this`tick, this`entries, this`modelMemory
      ensures Admits(world, start, id, headroom, ceiling, picks', sheds', stage', v, going, Now())
      ensures going ==> 0 <= Left(entries, stage') < old(Left(entries, stage))
    {
      hide Looked, UnderWay, Concluded, Left, Consistent;
      Looking(world, start, id, start.entries[id].size + headroom, ceiling, picks, sheds, stage, Now());
      tick := tick + 1;
      going, stage', v, picks', sheds' := AdmitLooking(id, headroom, ceiling, stage, start, picks, sheds);
    }

    method AdmitLooking(id: string, headroom: int, ceiling: int, stage: nat, ghost start: State, ghost picks: seq<Pick>,
                        ghost sheds: seq<Shed>)
      returns (going: bool, stage': nat, v: Verdict, ghost picks': seq<Pick>, ghost sheds': seq<Shed>)
      requires id in start.entries && stage <= 2 && Valid() && id in entries && entries[id] == start.entries[id]
      requires Looked(world, start, id, start.entries[id].size + headroom, ceiling, picks, sheds, stage, Now())
      modifies this`tick, this`entries, this`modelMemory
      ensures Admits(world, start, id, headroom, ceiling, picks', sheds', stage', v, going, Now())
      ensures going ==> 0 <= Left(entries, stage') < old(Left(entries, stage))
    {
      hide Looked, UnderWay, Concluded, Justified, Consistent, LoadedIds, LoadedSize, Evictable, IsVictim, Unload, Gained;
      var wanted, current := entries[id].size + headroom, world.memory(tick);
      going, stage', v, picks', sheds' := true, stage, Fit(current), picks, sheds;
      var victim: Option<string> := None;
      if ceiling < current + wanted { victim := FindLruVictim(); }
      if victim.Some? {
        UnderWayEvicts(world, start, id, wanted, ceiling, picks, sheds, stage, Now(), victim.value);
        picks' := picks + [Pick(tick, victim.value)];
        UnloadEngine(victim.value);
      } else if stage < 2 && entries[id].size <= ceiling < current + wanted {
        UnderWaySheds(world, start, id, wanted, ceiling, picks, sheds, stage, Now());
        GainedIs(world, tick, |picks|, wanted, ceiling);
        sheds', stage' := sheds + [Shed(tick, |picks|)], stage + 1;
        going := ShedCaches(current + wanted - ceiling, stage == 1);
        if !going {
          v := Judge(id, headroom, ceiling, current);
          ConcludesAfter(world, start, id, headroom, ceiling, picks, sheds, v, Now());
        }
      } else {
        going := false;
        v := Judge(id, headroom, ceiling, current);
        ConcludesWithout(world, start, id, headroom, ceiling, picks, sheds, stage, v, Now());
      }
    }

    /** Sheds hot caches: at first without losing anything, and worth another look in any case; then
        for good, and worth another look if that freed or queued something. */
    method ShedCaches(needed: int, dropDirty: bool) returns (again: bool)
      ensures again <==> !dropDirty || world.shed(tick, needed, dropDirty) != (0, 0)
    {
      var (freed, queued) := world.shed(tick, needed, dropDirty);
      again := freed > 0 || queued > 0 || !dropDirty;
    }

    /** The verdict once the model fits, or nothing can be evicted and nothing more can be shed. */
    method Judge(id: string, headroom: int, ceiling: int, current: int) returns (v: Verdict)
      requires id in entries && current == world.memory(tick)
      requires ceiling < current + entries[id].size + headroom ==> forall o :: !Evictable(entries, world, tick, o)
      ensures Justified(v, entries, world, tick, id, headroom, ceiling)
    {
      if current + entries[id].size + headroom <= ceiling { return Fit(current); }
      if entries[id].size > ceiling { return TooLarge(current); }
      var othersLoaded := exists o <- entries :: entries[o].engine.Some? && o != id;
      if !othersLoaded && current + entries[id].size <= ceiling { return Alone(current); }
      return Insufficient(current);
    }

    /** get_engine up to the wait for the engine to start. The answer is None while that is under
        way; the lock is kept then. */
    method GetEngine(id: string, forceLm: bool) returns (answer: Option<Answer>, ghost adm: Admission)
      requires Valid() && lock.None?
      modifies this
      ensures Valid() && Got(world, old(Now()), id, forceLm, adm, answer, Now())
    {
      hide Consistent, Admitted, Proceeds, JobManaged;
      adm := Admission([], [], None);
      if id !in entries { return Some(NotFound), adm; }
      if JobManaged(entries[id]) { return Some(NotLoadable), adm; }
      if Serves(entries, id, forceLm) {
        answer := Some(Ready(entries[id].engine.value));
        Touch(id);
        return;
      }
      answer, adm := LoadAnew(id, forceLm);
    }

    method Touch(id: string)
      requires Valid() && id in entries
      modifies this`tick, this`entries
      ensures Valid() && Now() == old(Now()).(tick := old(tick) + 1,
        entries := old(entries)[id := old(entries)[id].(lastAccess := world.clock(old(tick) + 1))])
    {
      hide Consistent;
      var es := entries[id := entries[id].(lastAccess := world.clock(tick + 1))];
      UseKeeps(Now(), es, tick + 1);
      tick, entries := tick + 1, es;
    }

    /** get_engine for a model that is not loaded, or loaded as the wrong kind of engine. */
    method LoadAnew(id: string, forceLm: bool) returns (answer: Option<Answer>, ghost adm: Admission)
      requires Valid() && lock.None? && id in entries && !JobManaged(entries[id]) && !Serves(entries, id, forceLm)
      modifies this
      ensures Valid() && Got(world, old(Now()), id, forceLm, adm, answer, Now())
    {
      hide Consistent, Admitted, JobManaged, Serves;
      UnloadEngine(id);
      var verdict;
      verdict, adm := AdmitUnderCeiling(id);
      ghost var m := Now();
      if verdict.Some? && (verdict.value.TooLarge? || verdict.value.Insufficient?) {
        answer := Some(Refused(verdict.value));
      } else {
        answer := BeginLoading(id, forceLm, true);
      }
      assert Proceeds(m, id, forceLm, adm, answer, Now());
    }

    /** The first segment of _load_engine; an error if the model is already being loaded. */
    method BeginLoading(id: string, forceLm: bool, locked: bool) returns (answer: Option<Answer>)
      requires Valid() && id in entries && entries[id].engine.None? && (locked ==> lock.None?)
      modifies this`entries, this`loads, this`lock
      ensures Valid() && Now() == if answer.None? then BeginLoad(old(Now()), id, forceLm, locked) else old(Now())
      ensures answer == if old(entries[id].loading) then Some(AlreadyLoading) else None
    {
      if entries[id].loading { return Some(AlreadyLoading); }
      BeginLoadKeeps(Now(), id, forceLm, locked);
      hide Consistent;
      var k := ObjectOf(entries, id);
      entries := entries[id := entries[id].(loading := true, abortLoading := false)];
      loads := loads[k := Load(forceLm, locked, Starting, None)];
      if locked { lock := Some(k); }
      return None;
    }

    /** Without a ceiling everything is admitted. */
    method AdmitUnderCeiling(id: string) returns (verdict: Option<Verdict>, ghost adm: Admission)
      requires Valid() && id in entries && entries[id].engine.None?
      modifies this`tick, this`entries, this`modelMemory
      ensures Valid() && Admitted(world, old(Now()), id, adm, Now()) && verdict == adm.verdict
      ensures id in entries && entries[id] == old(entries[id])
    {
      ghost var start := Now();
      UseKeeps(start, entries, tick + 1);
      hide Consistent, Admitted, Justified, Admitting, LoadedSize;
      tick := tick + 1;
      var ceiling := world.ceiling(tick);
      if ceiling <= 0 {
        AdmittedFreely(world, start, id);
        return None, Admission([], [], None);
      }
      var v;
      ghost var picks, sheds;
      v, picks, sheds := Admit(id, HeadroomAt(world, tick, entries[id]), ceiling);
      AdmittedUnder(world, start, id, picks, sheds, v, Now());
      return Some(v), Admission(picks, sheds, Some(v));
    }

    /** The second segment of _load_engine; an answer if the start has failed, and whether the limits are
        to be propagated now. */
    method StartOver(k: Object) returns (answer: Option<Answer>, tell: bool)
      requires Valid() && k in loads && loads[k].stage.Starting?
      modifies this
      ensures LoadFits(old(Now()), k)
      ensures Valid() && Now() == StartEnds(old(Now()), world, k) && answer == StartAnswer(old(Now()), world, k)
      ensures tell == (Completes(old(Now()), world, k) && !world.drafts(old(tick) + 1, k.0))
    {
      StartEndsKeeps(Now(), world, k);
      var engine, own, final, completes := StartEngine(k);
      hide Consistent, Boot, Booted, Completes, Registered;
      answer := None;
      if engine.None? {
        answer := Some(if own.kind.Media? && !world.dflash(tick + 1, k.0) then NotLoadable else StartFailed);
      }
      tell := completes && !world.drafts(tick + 1, k.0);
      Register(k, engine.None?, own, final, completes);
    }

    /** Starts the engine, and looks whether the load is to be aborted. */
    method StartEngine(k: Object) returns (engine: Option<Engine>, own: Entry, final: Entry, completes: bool)
      requires k in loads && LoadFits(Now(), k)
      ensures own == Own(Now(), k) && engine == Booted(Now(), world, k).0
      ensures final == Registered(Now(), world, k) && completes == Completes(Now(), world, k)
    {
      var load := loads[k];
      own := if load.orphan.Some? then load.orphan.value else entries[k.0];
      hide Boot;
      var relabelled: Entry;
      var booted := Boot(world, tick + 1, own, k.0, load.forceLm);
      engine, relabelled := booted.0, booted.1;
      completes := engine.Some? && !own.abortLoading;
      final := if completes then relabelled.(engine := engine, lastAccess := world.clock(tick + 1))
               else if engine.Some? then relabelled else relabelled.(loading := false, abortLoading := false);
    }

    method Register(k: Object, failed: bool, own: Entry, final: Entry, completes: bool)
      requires k in loads && LoadFits(Now(), k) && own == Own(Now(), k) && failed == Booted(Now(), world, k).0.None?
      requires final == Registered(Now(), world, k) && completes == Completes(Now(), world, k)
      modifies this
      ensures Now() == StartEnds(old(Now()), world, k)
    {
      hide Boot, Booted, Completes, Registered;
      var load := loads[k];
      tick := tick + 1;
      if load.orphan.None? { entries := entries[k.0 := final]; }
      if failed {
        loads := loads - {k};
        if lock == Some(k) { lock := None; }
      } else {
        var stage := if !completes then Leaving(true) else if world.drafts(tick, k.0) then Drafting else Leaving(false);
        loads := loads[k := load.(stage := stage)];
      }
      if completes {
        modelMemory := modelMemory + own.size;
        if load.orphan.Some? { lost := lost + own.size; }
      }
    }

    method DraftOver(k: Object)
      requires Valid() && k in loads && loads[k].stage.Drafting?
      modifies this`loads
      ensures Valid() && Now() == DraftEnds(old(Now()), k)
    {
      DraftEndsKeeps(Now(), k);
      hide Consistent;
      loads := loads[k := loads[k].(stage := Leaving(false))];
    }

    /** The end of _load_engine, and what get_engine answers then. */
    method LoadOver(k: Object) returns (answer: Answer)
      requires Valid() && k in loads && loads[k].stage.Leaving?
      modifies this`entries, this`loads, this`lock
      ensures LoadFits(old(Now()), k)
      ensures Valid() && Now() == LoadEnds(old(Now()), k) && answer == LoadAnswer(old(Now()), k)
    {
      LoadEndsKeeps(Now(), k);
      hide Consistent;
      answer := if loads[k].stage.aborted then LoadAborted
        else if k.0 in entries && entries[k.0].engine.Some? then Ready(entries[k.0].engine.value) else Missing;
      if loads[k].orphan.None? { entries := entries[k.0 := entries[k.0].(loading := false, abortLoading := false)]; }
      loads := loads - {k};
      if lock == Some(k) { lock := None; }
    }

    /** The administration's reload of a model whose settings changed, without the lock. */
    method ReloadEngine(id: string) returns (answer: Option<Answer>)
      requires Valid()
      modifies this
      ensures Valid() && (answer, Now()) == Reload(old(Now()), id)
    {
      if id !in entries { return Some(NotFound); }
      if entries[id].engine.None? { return Some(Missing); }
      hide Consistent;
      var pinned := entries[id].pinned;
      UnloadEngine(id);
      if !pinned { return Some(Missing); }
      answer := BeginLoading(id, false, false);
    }

    method DiscoverModels(d: Discovery)
      requires Valid()
      modifies this`entries, this`discoveries, this`loads
      ensures forall k <- old(loads) :: LoadFits(old(Now()), k)
      ensures Valid() && Now() == Discover(old(Now()), d)
    {
      DiscoverKeeps(Now(), d);
      ghost var next := Discover(Now(), d);
      hide Consistent, Discovered, LoadFits, WithoutEntries;
      var found := Discovered(entries, d, discoveries + 1);
      loads := Orphaned();
      entries, discoveries := found, discoveries + 1;
      assert Now() == next;
    }

    /** The loads, once those without an engine have lost their entries. */
    method Orphaned() returns (after: map<Object, Load>)
      requires forall k <- loads :: loads[k].orphan.None? ==> k.0 in entries
      ensures after == WithoutEntries(Now())
    {
      after := map k <- loads ::
        if loads[k].orphan.None? && entries[k.0].engine.None? then loads[k].(orphan := Some(entries[k.0])) else loads[k];
    }

    method Pin(id: string, pinned: bool) returns (ok: bool)
      requires Valid()
      modifies this`entries
      ensures Valid() && Now() == SetPinned(old(Now()), id, pinned) && ok == (id in old(entries))
    {
      if id !in entries { return false; }
      UseKeeps(Now(), entries[id := entries[id].(pinned := pinned)], tick);
      hide Consistent;
      entries := entries[id := entries[id].(pinned := pinned)];
      return true;
    }

    /** check_ttl_expirations. The result also says when each expired model had its turn. */
    method CheckTtl(ttl: map<string, int>, fallback: Option<int>) returns (gone: set<string>, ghost at: map<string, nat>)
      requires Valid() && lock.None?
      modifies this`tick, this`entries, this`modelMemory
      ensures Valid() && TtlChecked(world, old(Now()), ttl, fallback, gone, at, Now())
    {
      ghost var start := Now();
      UseKeeps(start, entries, tick + 1);
      TtlStarts(world, start, ttl, fallback);
      tick := tick + 1;
      var now := world.clock(tick);
      gone, at := {}, map[];
      var todo := entries.Keys;
      while todo != {}
        invariant Valid() && todo <= start.entries.Keys && TtlUnderway(world, start, ttl, fallback, gone, at, todo, Now())
      {
        hide *;
        var id :| id in todo;
        gone, at := CheckOne(ttl, fallback, now, id, gone, start, at, todo);
        todo := todo - {id};
      }
    }

    method CheckOne(ttl: map<string, int>, fallback: Option<int>, now: int, id: string, gone: set<string>,
                    ghost start: State, ghost at: map<string, nat>, ghost todo: set<string>)
      returns (gone': set<string>, ghost at': map<string, nat>)
      requires Valid() && TtlUnderway(world, start, ttl, fallback, gone, at, todo, Now())
      requires id in todo && id in start.entries && now == world.clock(start.tick + 1)
      modifies this`tick, this`entries, this`modelMemory
      ensures Valid() && TtlUnderway(world, start, ttl, fallback, gone', at', todo - {id}, Now())
    {
      TtlSkips(world, start, ttl, fallback, gone, at, todo, Now(), id);
      gone', at' := gone, at;
      if Expired(entries, ttl, fallback, now, id) {
        if world.active(tick, id) {
          TtlRefreshes(world, start, ttl, fallback, gone, at, todo, Now(), id);
        } else {
          TtlEvicts(world, start, ttl, fallback, gone, at, todo, Now(), id);
        }
        hide Consistent, TtlUnderway, Unload;
        at' := at[id := tick];
        var idle := Expire(id, now);
        if idle { gone' := gone + {id}; }
      }
    }

    method Expire(id: string, now: int) returns (idle: bool)
      requires Valid() && id in entries && entries[id].engine.Some?
      modifies this`tick, this`entries, this`modelMemory
      ensures Valid() && idle == !world.active(old(tick), id)
      ensures Now() == if idle then Unload(old(Now()), id)
                       else old(Now()).(entries := old(entries)[id := old(entries[id]).(lastAccess := now)])
    {
      idle := !world.active(tick, id);
      if idle {
        UnloadEngine(id);
      } else {
        UseKeeps(Now(), entries[id := entries[id].(lastAccess := now)], tick);
        hide Consistent;
        entries := entries[id := entries[id].(lastAccess := now)];
      }
    }

    /** shutdown: everything is unloaded. */
    method Shutdown()
      requires Valid() && lock.None?
      modifies this`tick, this`entries, this`modelMemory
      ensures Valid() && ShutDown(old(Now()), Now())
    {
      ghost var start := Now();
      var todo := entries.Keys;
      while todo != {}
        invariant Valid() && todo <= entries.Keys && ClosingDown(start, todo, Now())
      {
        hide Consistent, ClosingDown;
        var id :| id in todo;
        ClosingOne(start, todo, Now(), id);
        todo := todo - {id};
        UnloadEngine(id);
      }
      ClosedDown(start, Now());
    }
  }
}
