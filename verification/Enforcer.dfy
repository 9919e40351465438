/** The process memory enforcer (omlx/process_memory_enforcer.py). A tick is two segments: reading the
    usage and setting the level, without the pool's lock; then, once the lock is free, relieving the
    pressure and assessing it again. */
module Enforcer {
  import opened Common
  import opened Limits
  import opened PoolState
  import opened PoolAdmission
  import opened EnginePool

  /** What propagation does to one entry. */
  function Limited(e: Entry, soft: int, hard: int, paused: bool): Entry {
    if e.engine.Some? && e.engine.value.scheduler.Some?
    then e.(engine := Some(e.engine.value.(scheduler := Some(Scheduler(soft, hard, paused)))))
    else e
  }

  function Propagated(es: map<string, Entry>, soft: int, hard: int, paused: bool): map<string, Entry> {
    map id | id in es :: Limited(es[id], soft, hard, paused)
  }

  /** Every scheduler admits new requests exactly when it should. */
  predicate AllTold(es: map<string, Entry>, paused: bool) {
    forall id <- es :: es[id].engine.Some? && es[id].engine.value.scheduler.Some? ==>
      es[id].engine.value.scheduler.value.paused == paused
  }

  function Unpinned(es: map<string, Entry>): set<string> { set id | id in es && es[id].engine.Some? && !es[id].pinned }

  // ---------- the state of the enforcer ----------

  /** What an enforcer is set up with. */
  datatype Setup = Setup(world: World, readings: nat -> Readings, softRatio: real, hardRatio: real, custom: Option<int>)

  /** A tick that waits for the lock: the level it saw and the usage it wants to get down to. */
  datatype Waiting = Waiting(seen: Level, target: int)

  /** told is what the schedulers were told last: whether to pause admission. */
  datatype Control = Control(
    guard: bool,
    running: bool,
    level: Level,
    lastCeiling: int,
    lease: int,
    bound: bool,
    waiting: Option<Waiting>,
    told: bool)

  datatype Snap = Snap(pool: State, control: Control)

  function LimitAt(u: Setup, c: Control, tick: nat): int {
    HardLimit(c.guard, c.lease, c.bound, u.custom, u.readings(tick))
  }

  function Later(s: Snap, ticks: nat): Snap { s.(pool := s.pool.(tick := s.pool.tick + ticks)) }

  /** _propagate_memory_limit: every scheduler gets the limits and the admission state. */
  function Propagate(u: Setup, s: Snap): Snap {
    var ceiling, paused := LimitAt(u, s.control, s.pool.tick + 1), s.control.level != Ok;
    Snap(s.pool.(tick := s.pool.tick + 1,
                 entries := Propagated(s.pool.entries, Threshold(ceiling, u.softRatio), ceiling, paused)),
         s.control.(lastCeiling := ceiling, told := paused))
  }

  /** Caches a level, and propagates if it is a new one. */
  function SetLevel(u: Setup, s: Snap, level: Level): Snap {
    if level == s.control.level then s else Propagate(u, s.(control := s.control.(level := level)))
  }

  function LevelOf(u: Setup, usage: int, ceiling: int): Level {
    if ceiling <= 0 then Ok else Classify(usage, Threshold(ceiling, u.softRatio), Threshold(ceiling, u.hardRatio))
  }

  /** The first segment of a tick: propagate, read the ceiling and then the usage, set the level. */
  function BeginTick(u: Setup, s: Snap): Snap {
    var p := Propagate(u, s);
    var ceiling := LimitAt(u, p.control, p.pool.tick + 1);
    if ceiling <= 0 then Later(p.(control := p.control.(level := Ok)), 1)
    else
      var seen := LevelOf(u, u.world.memory(p.pool.tick + 2), ceiling);
      var q := SetLevel(u, Later(p, 2), seen);
      q.(control := q.control.(waiting := if seen == Ok then None else Some(Waiting(seen, Threshold(ceiling, u.softRatio)))))
  }

  /** The last part of a tick: the usage and then the ceiling are read again. */
  function Reassess(u: Setup, s: Snap): Snap {
    SetLevel(u, Later(s, 2), LevelOf(u, u.world.memory(s.pool.tick + 1), LimitAt(u, s.control, s.pool.tick + 2)))
  }

  // ---------- relieving the pressure ----------

  function Abortable(es: map<string, Entry>): set<string> { set id <- es | es[id].loading && !es[id].abortLoading }

  function Marked(es: map<string, Entry>, ids: set<string>): map<string, Entry> {
    map id <- es :: if id in ids then es[id].(abortLoading := true) else es[id]
  }

  /** What the eviction loop of a tick did: whom it unloaded, whose requests and which loads it aborted. */
  datatype Relief = Relief(picks: seq<Pick>, aborted: set<string>, marked: set<string>)

  function Ids(picks: seq<Pick>): set<string> { set p <- picks :: p.id }

  /** Every eviction was called for: usage was over the target, and another unpinned model was left. */
  ghost predicate CalledFor(w: World, es: map<string, Entry>, target: int, picks: seq<Pick>) {
    forall k :: 0 <= k < |picks| ==> target < w.memory(picks[k].tick) && |Unpinned(Without(es, picks[..k]))| > 1
  }

  /** Why the loop stopped, by its last look: usage is down; or the only unpinned model left could
      be evicted, and at hard pressure its requests are aborted instead; or nothing can be evicted,
      and at hard pressure the loads in progress are marked for abortion. */
  ghost predicate Stopped(w: World, left: map<string, Entry>, tick: nat, target: int, hard: bool, r: Relief) {
    if w.memory(tick) <= target then r.aborted == Ids(r.picks) && r.marked == {}
    else if exists id :: Evictable(left, w, tick, id) then
      |Unpinned(left)| == 1 && r.marked == {} && r.aborted == Ids(r.picks) + if hard then Unpinned(left) else {}
    else r.aborted == Ids(r.picks) && r.marked == if hard then Abortable(left) else {}
  }

  /** The eviction loop of one tick. */
  ghost predicate Relieved(w: World, s: State, target: int, hard: bool, r: Relief, t: State) {
    var left := Without(s.entries, r.picks);
    && s.tick < t.tick && t == s.(tick := t.tick, memory := t.memory, entries := Marked(left, r.marked))
    && Evicted(s, r.picks, t.(entries := left)) && Picked(s.entries, r.picks, w, s.tick, t.tick)
    && CalledFor(w, s.entries, target, r.picks) && Stopped(w, left, t.tick, target, hard, r)
  }

  /** The loop under way. */
  ghost predicate Relieving(w: World, s: State, target: int, picks: seq<Pick>, m: State) {
    && Consistent(m) && Evicted(s, picks, m) && Picked(s.entries, picks, w, s.tick, m.tick)
    && CalledFor(w, s.entries, target, picks)
  }

  lemma RelievingLater(w: World, s: State, target: int, picks: seq<Pick>, m: State)
    requires Relieving(w, s, target, picks, m)
    ensures Relieving(w, s, target, picks, m.(tick := m.tick + 1))
  {
    PickedLonger(s.entries, picks, w, s.tick, m.tick, m.tick + 1);
    UseKeeps(m, m.entries, m.tick + 1);
    hide LoadedSize, Picked, Without, CalledFor;
  }

  lemma CalledForOneMore(w: World, es: map<string, Entry>, target: int, picks: seq<Pick>, pick: Pick)
    requires CalledFor(w, es, target, picks) && target < w.memory(pick.tick) && |Unpinned(Without(es, picks))| > 1
    ensures CalledFor(w, es, target, picks + [pick])
  {
    var more := picks + [pick];
    hide Without, Unpinned;
    forall k | 0 <= k < |more| ensures target < w.memory(more[k].tick) && |Unpinned(Without(es, more[..k]))| > 1 {
      if k < |picks| { assert more[..k] == picks[..k]; } else { assert more[..k] == picks; }
    }
  }

  lemma RelievingEvicts(w: World, s: State, target: int, picks: seq<Pick>, m: State, victim: string)
    requires m.tick >= 1 && Relieving(w, s, target, picks, m.(tick := m.tick - 1)) && Consistent(m)
    requires IsVictim(m.entries, w, m.tick, victim) && target < w.memory(m.tick) && |Unpinned(m.entries)| > 1
    ensures Relieving(w, s, target, picks + [Pick(m.tick, victim)], Unload(m, victim))
    ensures |Unpinned(Unload(m, victim).entries)| < |Unpinned(m.entries)|
  {
    hide LoadedSize, Picked, IsVictim, LoadedIds, Consistent, CalledFor, Without, Unpinned;
    EvictedOneMore(s, picks, w, s.tick, m.tick - 1, m, victim);
    CalledForOneMore(w, s.entries, target, picks, Pick(m.tick, victim));
    VictimIsEvictable(m.entries, w, m.tick, victim);
    FewerUnpinned(m.entries, victim);
  }

  lemma FewerUnpinned(es: map<string, Entry>, id: string)
    requires id in es && es[id].engine.Some? && !es[id].pinned
    ensures |Unpinned(es[id := Unloaded(es[id])])| < |Unpinned(es)|
  {
    assert Unpinned(es[id := Unloaded(es[id])]) == Unpinned(es) - {id};
    assert |Unpinned(es) - {id}| == |Unpinned(es)| - 1;
  }

  lemma ReliefEnds(w: World, s: State, target: int, hard: bool, r: Relief, m: State)
    requires Relieving(w, s, target, r.picks, m) && s.tick < m.tick && Stopped(w, m.entries, m.tick, target, hard, r)
    ensures Relieved(w, s, target, hard, r, m.(entries := Marked(m.entries, r.marked)))
  {
    var t := m.(entries := Marked(m.entries, r.marked));
    assert t.(entries := m.entries) == m;
    assert LoadedIds(t.entries) == LoadedIds(m.entries);
    SameLoadsSameSize(m.entries, t.entries);
    hide LoadedSize, Picked, CalledFor, Stopped, Consistent;
  }

  /** Marking loads for abortion, which only those without the lock can be. */
  lemma MarkingKeeps(s: State, ids: set<string>)
    requires Consistent(s) && s.lock.None? && ids <= Abortable(s.entries)
    ensures Consistent(s.(entries := Marked(s.entries, ids)))
  {
    var t := s.(entries := Marked(s.entries, ids));
    assert LoadedIds(s.entries) == LoadedIds(t.entries);
    SameLoadsSameSize(s.entries, t.entries);
    hide LoadedSize;
    forall id | id in t.entries ensures EntryFits(t, id) {
      assert EntryFits(s, id);
      if ObjectOf(s.entries, id) in s.loads { assert LoadFits(s, ObjectOf(s.entries, id)); }
    }
    forall k | k in t.loads ensures LoadFits(t, k) { assert LoadFits(s, k); }
  }

  /** The second segment of a tick. */
  ghost predicate TickEnded(u: Setup, s: Snap, r: Relief, t: Snap) {
    s.control.waiting.Some? &&
    exists p: State ::
      && Relieved(u.world, s.pool, s.control.waiting.value.target, s.control.waiting.value.seen == Hard, r, p)
      && t == Reassess(u, Snap(p, s.control.(waiting := None)))
  }

  /** Pinned models stay, and so does one of the unpinned ones; afterwards usage was seen at or below
      the target, or at most one unpinned model is left, or none of them is idle. */
  lemma ReliefSpares(w: World, s: State, target: int, hard: bool, r: Relief, t: State)
    requires Relieved(w, s, target, hard, r, t)
    ensures Ids(r.picks) <= Unpinned(s.entries) && Unpinned(t.entries) == Unpinned(s.entries) - Ids(r.picks)
    ensures Unpinned(s.entries) != {} ==> Unpinned(t.entries) != {}
    ensures Ids(r.picks) <= r.aborted <= Unpinned(s.entries) && (!hard ==> r.aborted == Ids(r.picks))
    ensures w.memory(t.tick) <= target || |Unpinned(t.entries)| == 1 || forall id :: !Evictable(t.entries, w, t.tick, id)
  {
    var left := Without(s.entries, r.picks);
    hide Picked, CalledFor, Evicted, Without, Ids, Evictable, Unpinned, Marked, Abortable;
    ReliefPicks(w, s.entries, target, r.picks, s.tick, t.tick);
    MarkingLeaves(left, r.marked, w, t.tick);
  }

  lemma ReliefPicks(w: World, es: map<string, Entry>, target: int, picks: seq<Pick>, lo: nat, hi: nat)
    requires Picked(es, picks, w, lo, hi) && CalledFor(w, es, target, picks)
    ensures Ids(picks) <= Unpinned(es) && Unpinned(Without(es, picks)) == Unpinned(es) - Ids(picks)
    ensures Unpinned(es) != {} ==> Unpinned(Without(es, picks)) != {}
  {
    hide Picked, Without, Unpinned, Ids;
    UnpinnedLeft(es, picks);
    PicksUnpinned(w, es, picks, lo, hi);
    if picks != [] { LastCalledFor(w, es, target, picks); } else { WithoutNobody(es); }
  }

  lemma LastCalledFor(w: World, es: map<string, Entry>, target: int, picks: seq<Pick>)
    requires CalledFor(w, es, target, picks) && picks != []
    ensures Unpinned(Without(es, picks)) != {}
  {
    var before, last := picks[..|picks| - 1], picks[|picks| - 1];
    assert |Unpinned(Without(es, before))| > 1;
    hide *;
    UnpinnedLeft(es, picks);
    UnpinnedLeft(es, before);
    LastId(picks);
    Leaves(Unpinned(Without(es, before)), last.id);
    assert Unpinned(Without(es, picks)) == Unpinned(Without(es, before)) - {last.id};
  }

  lemma LastId(picks: seq<Pick>)
    requires picks != []
    ensures Ids(picks) == Ids(picks[..|picks| - 1]) + {picks[|picks| - 1].id}
  {
    assert picks == picks[..|picks| - 1] + [picks[|picks| - 1]];
  }

  lemma PicksUnpinned(w: World, es: map<string, Entry>, picks: seq<Pick>, lo: nat, hi: nat)
    requires Picked(es, picks, w, lo, hi)
    ensures Ids(picks) <= Unpinned(es)
  {
    forall k | 0 <= k < |picks| ensures picks[k].id in Unpinned(es) {
      PickedWereIdle(es, picks, w, lo, hi, k);
    }
  }

  lemma MarkingLeaves(es: map<string, Entry>, marked: set<string>, w: World, tick: nat)
    ensures Unpinned(Marked(es, marked)) == Unpinned(es)
    ensures forall id :: Evictable(Marked(es, marked), w, tick, id) <==> Evictable(es, w, tick, id)
  {
  }

  lemma UnpinnedLeft(es: map<string, Entry>, picks: seq<Pick>)
    ensures Unpinned(Without(es, picks)) == Unpinned(es) - Ids(picks)
  {
    forall id | id in es ensures WasPicked(picks, id) <==> id in Ids(picks) {}
  }

  lemma Leaves(s: set<string>, x: string)
    requires |s| > 1
    ensures s - {x} != {}
  {
    if x in s { assert |s - {x}| == |s| - 1; } else { assert s - {x} == s; }
  }

  lemma LevelIsWarranted(u: Setup, usage: int, ceiling: int)
    ensures Warranted(LevelOf(u, usage, ceiling), usage, ceiling, u.softRatio, u.hardRatio)
  {
    if ceiling > 0 { ClassifiedAsWarranted(usage, ceiling, u.softRatio, u.hardRatio); }
    hide Classify, Threshold, Warranted;
  }

  /** A tick begins by setting the level that its reading of the ceiling, and then of the usage, calls for;
      under pressure it goes on waiting for the lock, to get usage down to the soft mark. */
  lemma LevelIsOfFirstReadings(u: Setup, s: Snap)
    ensures var t, ceiling := BeginTick(u, s).control, LimitAt(u, s.control, s.pool.tick + 2);
      && Warranted(t.level, u.world.memory(s.pool.tick + 3), ceiling, u.softRatio, u.hardRatio)
      && (t.level != Ok ==>
            && t.waiting.Some? && t.waiting.value.seen == t.level
            && t.waiting.value.target as real <= ceiling as real * u.softRatio < (t.waiting.value.target + 1) as real)
      && (t.level == Ok ==> t.waiting == if ceiling > 0 then None else s.control.waiting)
  {
    hide LevelOf, LimitAt, Propagated, Threshold, Warranted;
    var usage, ceiling := u.world.memory(s.pool.tick + 3), LimitAt(u, s.control, s.pool.tick + 2);
    LevelIsWarranted(u, usage, ceiling);
    if ceiling > 0 { MarkIsFloor(ceiling, u.softRatio); }
    assert LimitAt(u, Propagate(u, s).control, s.pool.tick + 2) == ceiling by { SameLimit(u, s, s.pool.tick + 2); }
    if ceiling <= 0 { assert LevelOf(u, usage, ceiling) == Ok by { NoCeilingNoLevel(u, usage, ceiling); } }
  }

  lemma MarkIsFloor(ceiling: int, ratio: real)
    requires ceiling > 0
    ensures Threshold(ceiling, ratio) as real <= ceiling as real * ratio < (Threshold(ceiling, ratio) + 1) as real
  {
  }

  lemma SameLimit(u: Setup, s: Snap, tick: nat)
    ensures LimitAt(u, Propagate(u, s).control, tick) == LimitAt(u, s.control, tick)
  {
    hide HardLimit, Propagated, Threshold;
  }

  lemma NoCeilingNoLevel(u: Setup, usage: int, ceiling: int)
    requires ceiling <= 0
    ensures LevelOf(u, usage, ceiling) == Ok
  {
  }

  /** A tick ends at the level that its last two readings, the usage and then the ceiling, call for; if that
      is a new level, one more reading is made to propagate it. */
  lemma LevelIsOfLastReadings(u: Setup, a: Snap, r: Relief, b: Snap)
    requires TickEnded(u, a, r, b)
    ensures var last := b.pool.tick - (if b.control.level == a.control.level then 1 else 2);
      && a.pool.tick < last && b.control.waiting.None?
      && Warranted(b.control.level, u.world.memory(last), LimitAt(u, a.control, last + 1), u.softRatio, u.hardRatio)
      && (b.control.level != a.control.level ==> b.control.told == (b.control.level != Ok))
  {
    hide LevelOf, HardLimit, Propagated, Evicted, Picked, CalledFor, Stopped, Warranted, Threshold, Marked, Without;
    var last := b.pool.tick - (if b.control.level == a.control.level then 1 else 2);
    LevelIsWarranted(u, u.world.memory(last), LimitAt(u, a.control, last + 1));
  }

  /** Whom a relief aborts, by its last look: only at hard pressure, with usage still over the target, anyone
      but the models it evicted; then either all requests of the loaded models that are not pinned, if one of
      them is idle, or every load in progress. */
  ghost predicate Aborts(w: World, s: State, target: int, hard: bool, r: Relief, t: State) {
    var stuck := hard && w.memory(t.tick) > target;
    if stuck && exists id :: Evictable(t.entries, w, t.tick, id) then
      && (forall id :: id in r.aborted <==>
            id in Ids(r.picks) || (id in t.entries && t.entries[id].engine.Some? && !t.entries[id].pinned))
      && r.marked == {}
    else
      && r.aborted == Ids(r.picks) && t.entries.Keys == s.entries.Keys
      && (forall id <- s.entries :: id in r.marked <==> stuck && s.entries[id].loading && !s.entries[id].abortLoading)
      && (stuck ==> forall id <- t.entries :: t.entries[id].loading ==> t.entries[id].abortLoading)
  }

  lemma ReliefAborts(w: World, s: State, target: int, hard: bool, r: Relief, t: State)
    requires Relieved(w, s, target, hard, r, t)
    ensures Aborts(w, s, target, hard, r, t)
  {
    var left := Without(s.entries, r.picks);
    MarkingLeaves(left, r.marked, w, t.tick);
    hide Picked, CalledFor, Evicted, Evictable, Ids, WasPicked;
  }

  /** A tick aborts no request but those of the models it evicts, and no load, unless the level it began
      with was hard; a hard one aborts more exactly as its last look says. */
  lemma OnlyHardAborts(u: Setup, a: Snap, r: Relief, b: Snap)
    requires TickEnded(u, a, r, b)
    ensures a.control.waiting.value.seen != Hard ==> r.aborted == Ids(r.picks) && r.marked == {}
  {
    hide HardLimit, Propagated, Evicted, Picked, CalledFor, SetLevel, LevelOf;
  }

  // ---------- the enforcer as it runs ----------

  datatype LeaseResult = Granted | NotPositive | AlreadyHeld

  function Acquired(u: Setup, s: Snap, bytes: int): (LeaseResult, Snap) {
    if bytes <= 0 then (NotPositive, s)
    else if s.control.lease > 0 then (AlreadyHeld, s)
    else
      var t := s.(control := s.control.(lease := bytes));
      (Granted, if s.control.running then Propagate(u, t) else t)
  }

  function Released(u: Setup, s: Snap): Snap {
    if s.control.lease <= 0 then s
    else
      var t := s.(control := s.control.(lease := 0, bound := false));
      if s.control.running then Propagate(u, t) else t
  }

  /** set_video_worker_pid. */
  function Bound(s: Snap, bound: bool): Snap { s.(control := s.control.(bound := bound)) }

  /** The setter of prefill_memory_guard. */
  function Guarded(u: Setup, s: Snap, on: bool): Snap {
    var t := s.(control := s.control.(guard := on));
    if s.control.running then Propagate(u, t) else t
  }

  /** Propagation tells every scheduler the ceiling read then as its hard limit, the soft share of it in whole
      bytes as its soft one, or none without a ceiling, and to pause unless the level is ok; nothing else
      about any model changes. */
  lemma LimitsAreTold(u: Setup, s: Snap, id: string)
    requires id in s.pool.entries
    ensures var e, t, ceiling := s.pool.entries[id], Propagate(u, s), LimitAt(u, s.control, s.pool.tick + 1);
      && t.pool.entries.Keys == s.pool.entries.Keys
      && if e.engine.None? || e.engine.value.scheduler.None? then t.pool.entries[id] == e
         else
           var f := t.pool.entries[id];
           && f.engine.Some? && f.engine.value.scheduler.Some? && f == e.(engine := f.engine) && f.engine.value.isVlm == e.engine.value.isVlm
           && var told := f.engine.value.scheduler.value;
           && told.hardLimit == ceiling && told.paused == (s.control.level != Ok)
           && if ceiling > 0 then told.softLimit as real <= ceiling as real * u.softRatio < (told.softLimit + 1) as real
              else told.softLimit == 0
  {
    var ceiling := LimitAt(u, s.control, s.pool.tick + 1);
    if ceiling > 0 { MarkIsFloor(ceiling, u.softRatio); } else { assert Threshold(ceiling, u.softRatio) == 0; }
    hide LimitAt, Threshold;
  }

  /** Every scheduler has the limits that follow from this ceiling, and admits as the level says. */
  ghost predicate Reaches(u: Setup, s: Snap, ceiling: int) {
    forall id <- s.pool.entries :: s.pool.entries[id].engine.Some? && s.pool.entries[id].engine.value.scheduler.Some? ==>
      s.pool.entries[id].engine.value.scheduler.value == Scheduler(Threshold(ceiling, u.softRatio), ceiling, s.control.level != Ok)
  }

  /** A lease is granted exactly if it is positive and none is held; the enforcer that runs brings the
      lowered ceiling, which is not "no limit", to every scheduler at once, and the ceiling without a
      lease when it is given back. */
  lemma LeaseReachesSchedulers(u: Setup, s: Snap, bytes: int)
    requires s.control.running && s.control.guard
    ensures var (r, t) := Acquired(u, s, bytes);
      && (r.Granted? <==> bytes > 0 && s.control.lease <= 0) && (!r.Granted? ==> t == s)
      && (r.Granted? ==>
            var lowered, v := LimitAt(u, s.control.(lease := bytes), s.pool.tick + 1), Released(u, t);
            && t.control == s.control.(lease := bytes, lastCeiling := lowered, told := s.control.level != Ok)
            && Reaches(u, t, lowered) && lowered >= 1
            && v.control.lease == 0 && !v.control.bound
            && Reaches(u, v, HardLimit(true, 0, false, u.custom, u.readings(s.pool.tick + 2))))
  {
    hide Threshold, DynamicCeiling, ExternalCeiling;
  }

  /** What a bound worker takes out of its lease is not charged again, at whatever tick it is read. */
  lemma WorkerIsChargedOnce(u: Setup, s: Snap, tick: nat, taken: nat)
    requires var c := Bound(s, true).control; c.guard && 0 < taken <= c.lease && u.readings(tick).worker == taken
    ensures var c, r := Bound(s, true).control, u.readings(tick);
      LimitAt(u, c, tick) == Max(1, HardLimit(true, 0, false, u.custom, r.(worker := 0, reclaimable := r.reclaimable + taken)) - c.lease)
  {
    var c, r := Bound(s, true).control, u.readings(tick);
    var before := r.(worker := 0, reclaimable := r.reclaimable + taken);
    assert r == before.(worker := taken, reclaimable := before.reclaimable - taken);
    LeaseIsChargedOnce(c.lease, u.custom, before, taken);
  }

  function Started(u: Setup, s: Snap): Snap {
    if s.control.running then s else Propagate(u, s.(control := s.control.(running := true)))
  }

  /** A tick that waits for the lock is cancelled. */
  function Halted(s: Snap): Snap { s.(control := s.control.(running := false, waiting := None)) }

  lemma PropagateKeeps(u: Setup, s: Snap)
    requires Consistent(s.pool)
    ensures Consistent(Propagate(u, s).pool)
  {
    UseKeeps(s.pool, Propagate(u, s).pool.entries, s.pool.tick + 1);
  }

  class MemoryEnforcer {
    const pool: Pool
    const readings: nat -> Readings
    const softRatio: real
    const hardRatio: real
    const custom: Option<int>
    var guard: bool
    var running: bool
    var level: Level
    var lastCeiling: int
    var lease: int
    var workerBound: bool
    var waiting: Option<Waiting>
    ghost var told: bool

    constructor (pool: Pool, readings: nat -> Readings, softRatio: real, hardRatio: real, custom: Option<int>)
      ensures this.pool == pool && Plan() == Setup(pool.world, readings, softRatio, hardRatio, custom)
      ensures Now() == Snap(pool.Now(), Control(true, false, Ok, 0, 0, false, None, false))
    {
      this.pool, this.readings, this.softRatio, this.hardRatio, this.custom := pool, readings, softRatio, hardRatio, custom;
      guard, running, level, lastCeiling, lease, workerBound := true, false, Ok, 0, 0, false;
      waiting, told := None, false;
    }

    ghost function Plan(): Setup { Setup(pool.world, readings, softRatio, hardRatio, custom) }

    ghost function Now(): Snap
      reads this, pool
    {
      Snap(pool.Now(), Control(guard, running, level, lastCeiling, lease, workerBound, waiting, told))
    }

    /** One tick later, the ceiling of then. */
    method ReadLimit() returns (ceiling: int)
      requires pool.Valid()
      modifies pool`tick
      ensures pool.Valid() && Now() == Later(old(Now()), 1) && ceiling == LimitAt(Plan(), Now().control, pool.tick)
    {
      UseKeeps(pool.Now(), pool.entries, pool.tick + 1);
      hide Consistent, HardLimit;
      pool.tick := pool.tick + 1;
      ceiling := HardLimit(guard, lease, workerBound, custom, readings(pool.tick));
    }

    /** One tick later, the usage of then. */
    method ReadUsage() returns (current: int)
      requires pool.Valid()
      modifies pool`tick
      ensures pool.Valid() && Now() == Later(old(Now()), 1) && current == pool.world.memory(pool.tick)
    {
      UseKeeps(pool.Now(), pool.entries, pool.tick + 1);
      hide Consistent;
      pool.tick := pool.tick + 1;
      current := pool.world.memory(pool.tick);
    }

    method PropagateMemoryLimit()
      requires pool.Valid()
      modifies this`lastCeiling, this`told, pool`tick, pool`entries
      ensures pool.Valid() && Now() == Propagate(Plan(), old(Now()))
    {
      PropagateKeeps(Plan(), Now());
      hide Consistent, HardLimit, Propagated, Threshold;
      var ceiling := HardLimit(guard, lease, workerBound, custom, readings(pool.tick + 1));
      var limited := Propagated(pool.entries, Threshold(ceiling, softRatio), ceiling, level != Ok);
      ghost var next := Propagate(Plan(), Now());
      lastCeiling, told := ceiling, level != Ok;
      pool.tick, pool.entries := pool.tick + 1, limited;
      assert Now() == next;
    }

    method AcquireVideoLease(bytes: int) returns (r: LeaseResult)
      requires pool.Valid()
      modifies this`lease, this`lastCeiling, this`told, pool`tick, pool`entries
      ensures pool.Valid() && (r, Now()) == Acquired(Plan(), old(Now()), bytes)
    {
      hide Consistent, Propagate;
      if bytes <= 0 { return NotPositive; }
      if lease > 0 { return AlreadyHeld; }
      lease := bytes;
      if running { PropagateMemoryLimit(); }
      return Granted;
    }

    method ReleaseVideoLease()
      requires pool.Valid()
      modifies this`lease, this`workerBound, this`lastCeiling, this`told, pool`tick, pool`entries
      ensures pool.Valid() && Now() == Released(Plan(), old(Now()))
    {
      hide Consistent, Propagate;
      if lease <= 0 { return; }
      lease, workerBound := 0, false;
      if running { PropagateMemoryLimit(); }
    }

    method SetVideoWorker(bound: bool)
      modifies this`workerBound
      ensures Now() == Bound(old(Now()), bound)
    {
      workerBound := bound;
    }

    method SetGuard(on: bool)
      requires pool.Valid()
      modifies this`guard, this`lastCeiling, this`told, pool`tick, pool`entries
      ensures pool.Valid() && Now() == Guarded(Plan(), old(Now()), on)
    {
      hide Consistent, Propagate;
      guard := on;
      if running { PropagateMemoryLimit(); }
    }

    method Start()
      requires pool.Valid()
      modifies this`running, this`lastCeiling, this`told, pool`tick, pool`entries
      ensures pool.Valid() && Now() == Started(Plan(), old(Now()))
    {
      hide Consistent, Propagate;
      if running { return; }
      running := true;
      PropagateMemoryLimit();
    }

    method Stop()
      modifies this`running, this`waiting
      ensures Now() == Halted(old(Now()))
    {
      running, waiting := false, None;
    }

    method ChangeLevel(next: Level)
      requires pool.Valid()
      modifies this`level, this`lastCeiling, this`told, pool`tick, pool`entries
      ensures pool.Valid() && Now() == SetLevel(Plan(), old(Now()), next)
    {
      hide Consistent, Propagate;
      if next != level {
        level := next;
        PropagateMemoryLimit();
      }
    }

    /** The first segment of _check_and_enforce. */
    method BeginCheck()
      requires pool.Valid() && running && waiting.None?
      modifies this`level, this`lastCeiling, this`told, this`waiting, pool`tick, pool`entries
      ensures pool.Valid() && Now() == BeginTick(Plan(), old(Now()))
      ensures Warranted(level, pool.world.memory(old(pool.tick) + 3), LimitAt(Plan(), old(Now()).control, old(pool.tick) + 2),
                        softRatio, hardRatio)
    {
      LevelIsOfFirstReadings(Plan(), Now());
      hide Consistent, Propagate, SetLevel, LimitAt, Classify, Threshold, Warranted;
      PropagateMemoryLimit();
      var ceiling := ReadLimit();
      if ceiling <= 0 {
        level := Ok;
        return;
      }
      var soft, hard := Threshold(ceiling, softRatio), Threshold(ceiling, hardRatio);
      var current := ReadUsage();
      var seen := Classify(current, soft, hard);
      ChangeLevel(seen);
      waiting := if seen == Ok then None else Some(Waiting(seen, soft));
    }

    /** The second segment, once the lock is free. */
    method EndCheck() returns (ghost r: Relief)
      requires pool.Valid() && pool.lock.None? && waiting.Some?
      modifies this`level, this`lastCeiling, this`told, this`waiting, pool`tick, pool`entries, pool`modelMemory
      ensures pool.Valid() && TickEnded(Plan(), old(Now()), r, Now())
      ensures Warranted(level, pool.world.memory(pool.tick - if level == old(level) then 1 else 2),
                        LimitAt(Plan(), old(Now()).control, pool.tick - if level == old(level) then 0 else 1), softRatio, hardRatio)
    {
      hide Consistent, Propagate, SetLevel, LimitAt, Classify, Threshold, Relieved, Warranted;
      r := Relieve(waiting.value.target, waiting.value.seen == Hard);
      waiting := None;
      ghost var relieved := Now();
      var current := ReadUsage();
      var ceiling := ReadLimit();
      ChangeLevel(if ceiling <= 0 then Ok
                  else Classify(current, Threshold(ceiling, softRatio), Threshold(ceiling, hardRatio)));
      assert Now() == Reassess(Plan(), relieved);
      LevelIsOfLastReadings(Plan(), old(Now()), r, Now());
    }

    /** The eviction loop of one tick. It ends for any readings. */
    method Relieve(target: int, hard: bool) returns (ghost r: Relief)
      requires pool.Valid() && pool.lock.None?
      modifies pool`tick, pool`entries, pool`modelMemory
      ensures pool.Valid() && Relieved(pool.world, old(pool.Now()), target, hard, r, pool.Now())
    {
      ghost var start, picks := pool.Now(), [];
      WithoutNobody(pool.entries);
      assert Relieving(pool.world, start, target, picks, pool.Now());
      hide *;
      var going := true;
      while going
        invariant Relieving(pool.world, start, target, picks, pool.Now())
        invariant !going ==> start.tick < pool.tick && pool.Now().tick == pool.tick
        invariant !going ==> pool.world.memory(pool.tick) <= target || |Unpinned(pool.entries)| <= 1
                             || forall id :: !Evictable(pool.entries, pool.world, pool.tick, id)
        decreases going, |Unpinned(pool.entries)|
      {
        going, picks := EvictNext(target, start, picks);
      }
      r := Finish(target, hard, start, picks);
    }

    /** One look at the usage, and at most one eviction. */
    method EvictNext(target: int, ghost start: State, ghost picks: seq<Pick>) returns (going: bool, ghost more: seq<Pick>)
      requires Relieving(pool.world, start, target, picks, pool.Now())
      modifies pool`tick, pool`entries, pool`modelMemory
      ensures Relieving(pool.world, start, target, more, pool.Now()) && pool.Now().tick == pool.tick && start.tick < pool.tick
      ensures |Unpinned(pool.entries)| <= |old(Unpinned(pool.entries))|
      ensures going ==> |Unpinned(pool.entries)| < |old(Unpinned(pool.entries))|
      ensures !going ==> pool.world.memory(pool.tick) <= target || |Unpinned(pool.entries)| <= 1
                         || forall id :: !Evictable(pool.entries, pool.world, pool.tick, id)
    {
      RelievingLater(pool.world, start, target, picks, pool.Now());
      ghost var before := pool.Now();
      var current := ReadUsage();
      assert pool.Now().(tick := pool.tick - 1) == before;
      going, more := false, picks;
      if current <= target { return; }
      var victim := pool.FindLruVictim();
      if victim.Some? && |Unpinned(pool.entries)| > 1 {
        RelievingEvicts(pool.world, start, target, picks, pool.Now(), victim.value);
        hide Relieving, Consistent, Unpinned, Unload;
        going, more := true, picks + [Pick(pool.tick, victim.value)];
        pool.UnloadEngine(victim.value);
      }
    }

    /** The end of the loop: at hard pressure, requests or loads are aborted. */
    method Finish(target: int, hard: bool, ghost start: State, ghost picks: seq<Pick>) returns (ghost r: Relief)
      requires Relieving(pool.world, start, target, picks, pool.Now()) && start.tick < pool.tick && pool.lock.None?
      requires pool.world.memory(pool.tick) <= target || |Unpinned(pool.entries)| <= 1
        || forall id :: !Evictable(pool.entries, pool.world, pool.tick, id)
      modifies pool`entries
      ensures pool.Valid() && Relieved(pool.world, start, target, hard, r, pool.Now())
    {
      var marked := {};
      r := Relief(picks, Ids(picks), {});
      if pool.world.memory(pool.tick) > target {
        var victim := pool.FindLruVictim();
        if victim.Some? {
          VictimIsEvictable(pool.entries, pool.world, pool.tick, victim.value);
          OneUnpinned(pool.entries, victim.value);
          if hard { r := r.(aborted := Ids(picks) + Unpinned(pool.entries)); }
        } else if hard {
          marked := Abortable(pool.entries);
          r := r.(marked := marked);
        }
      }
      assert Stopped(pool.world, pool.entries, pool.tick, target, hard, r);
      ReliefEnds(pool.world, start, target, hard, r, pool.Now());
      MarkingKeeps(pool.Now(), marked);
      hide Consistent, Relieving, Relieved;
      pool.entries := Marked(pool.entries, marked);
    }
  }

  lemma OneUnpinned(es: map<string, Entry>, id: string)
    requires id in Unpinned(es) && |Unpinned(es)| <= 1
    ensures |Unpinned(es)| == 1
  {
    assert |Unpinned(es) - {id}| == |Unpinned(es)| - 1;
  }
}
