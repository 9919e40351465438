/** Requests to the engine pool (omlx/engine_pool.py, get_engine), as relations on its states: the
    admission, which evicts and sheds until it can decide, and the start of a load; and what goes over all
    models, expiry and shutdown. */
module PoolAdmission {
  import opened Common
  import opened PoolState

  // ---------- get_engine ----------

  /** Is this request answered from the engine already loaded? */
  predicate Serves(es: map<string, Entry>, id: string, forceLm: bool) {
    id in es && es[id].engine.Some? && !(forceLm && es[id].engine.value.isVlm)
  }

  /** One shedding of hot caches: its tick, and how many models had been evicted by then. */
  datatype Shed = Shed(tick: nat, after: nat)

  /** How an admission went: whom it evicted, when it shed caches, and its verdict, if there was a
      ceiling. */
  datatype Admission = Admission(picks: seq<Pick>, sheds: seq<Shed>, verdict: Option<Verdict>)

  function HeadroomAt(w: World, tick: nat, e: Entry): int {
    if Generates(e) && w.headroom(tick) > 0 then w.headroom(tick) else 0
  }

  /** Why an admission loop stopped, by its last reading: tick is that of the reading. */
  ghost predicate Justified(v: Verdict, es: map<string, Entry>, w: World, tick: nat, id: string, headroom: int, ceiling: int)
    requires id in es
  {
    var size, usage := es[id].size, w.memory(tick);
    v.current == usage &&
    match v
    case Fit(_) => usage + size + headroom <= ceiling
    case Alone(_) =>
      && (forall o <- es :: es[o].engine.Some? ==> o == id)
      && size <= ceiling && usage + size <= ceiling < usage + size + headroom
      && forall o :: !Evictable(es, w, tick, o)
    case TooLarge(_) => size > ceiling && ceiling < usage + size + headroom && forall o :: !Evictable(es, w, tick, o)
    case Insufficient(_) =>
      && size <= ceiling < usage + size + headroom
      && (forall o :: !Evictable(es, w, tick, o))
      && ((exists o <- es :: es[o].engine.Some? && o != id) || ceiling < usage + size)
  }

  /** The state after the evictions of an admission or of the enforcer, at some tick. */
  ghost predicate Evicted(s: State, picks: seq<Pick>, t: State) {
    && t == s.(tick := t.tick, entries := Without(s.entries, picks), memory := t.memory)
    && s.tick <= t.tick && t.memory - LoadedSize(t.entries) == s.memory - LoadedSize(s.entries)
  }

  lemma EvictedOneMore(s: State, picks: seq<Pick>, w: World, lo: nat, hi: nat, m: State, id: string)
    requires Consistent(m) && Evicted(s, picks, m) && Picked(s.entries, picks, w, lo, hi)
    requires lo <= hi < m.tick && IsVictim(m.entries, w, m.tick, id)
    ensures var t, more := Unload(m, id), picks + [Pick(m.tick, id)];
      && Consistent(t) && Evicted(s, more, t) && Picked(s.entries, more, w, lo, t.tick)
      && t.tick == m.tick + 1 && t.entries == m.entries[id := Unloaded(m.entries[id])]
      && LoadedIds(t.entries) == LoadedIds(m.entries) - {id} && id in LoadedIds(m.entries)
  {
    VictimIsEvictable(m.entries, w, m.tick, id);
    assert id in s.entries;
    hide LoadedSize, Picked, IsVictim, Without, Consistent, LoadedIds;
    PickedOne(s.entries, picks, w, lo, hi, m.tick + 1, m.tick, id);
    WithoutOneMore(s.entries, picks, Pick(m.tick, id));
    UnloadedSize(m.entries, id);
    UnloadKeeps(m, id);
    LoadedIsLoaded(m.entries, id);
  }

  lemma LoadedIsLoaded(es: map<string, Entry>, id: string)
    requires id in es && es[id].engine.Some?
    ensures id in LoadedIds(es)
  {
  }

  lemma WithoutNobody(es: map<string, Entry>)
    ensures Without(es, []) == es
  {
  }

  lemma VictimIsLoaded(es: map<string, Entry>, w: World, tick: nat, id: string)
    requires IsVictim(es, w, tick, id)
    ensures id in es && es[id].engine.Some?
  {
  }

  lemma PickedLonger(es: map<string, Entry>, picks: seq<Pick>, w: World, lo: nat, hi: nat, now: nat)
    requires Picked(es, picks, w, lo, hi) && hi <= now
    ensures Picked(es, picks, w, lo, now)
  {
    hide IsVictim, Without;
  }

  lemma EvictedKeeps(s: State, picks: seq<Pick>, w: World, lo: nat, hi: nat, t: State)
    requires Consistent(s) && Evicted(s, picks, t) && Picked(s.entries, picks, w, lo, hi)
    ensures Consistent(t)
  {
    hide LoadedSize;
    forall id | id in s.entries && WasPicked(picks, id) ensures s.entries[id].engine.Some? {
      var p :| p in picks && p.id == id;
      var k :| 0 <= k < |picks| && picks[k] == p;
      PickedWereIdle(s.entries, picks, w, lo, hi, k);
    }
    hide Picked, WasPicked;
    forall id | id in t.entries ensures EntryFits(t, id) { assert EntryFits(s, id); }
    forall k | k in t.loads ensures LoadFits(t, k) { assert LoadFits(s, k); }
  }

  /** Every eviction of an admission was needed: at its tick the model did not fit. */
  ghost predicate Needed(picks: seq<Pick>, w: World, wanted: int, ceiling: int) {
    forall k :: 0 <= k < |picks| ==> ceiling < w.memory(picks[k].tick) + wanted
  }

  /** Caches are shed at most twice, each time because the model, which could fit, did not, and nobody
      could be evicted. */
  ghost predicate ShedAtNeed(w: World, es: map<string, Entry>, size: int, wanted: int, ceiling: int, picks: seq<Pick>,
                             sheds: seq<Shed>, lo: nat, hi: nat) {
    && |sheds| <= 2 && (|sheds| == 2 ==> sheds[0].tick < sheds[1].tick)
    && forall h <- sheds ::
         && lo < h.tick <= hi && h.after <= |picks| && size <= ceiling < w.memory(h.tick) + wanted
         && (forall j :: 0 <= j < |picks| ==> if j < h.after then picks[j].tick < h.tick else h.tick < picks[j].tick)
         && forall o :: !Evictable(Without(es, picks[..h.after]), w, h.tick, o)
  }

  /** This shedding freed or queued something. */
  predicate Gained(w: World, h: Shed, wanted: int, ceiling: int, dropDirty: bool) {
    w.shed(h.tick, w.memory(h.tick) + wanted - ceiling, dropDirty) != (0, 0)
  }

  lemma GainedIs(w: World, tick: nat, after: nat, wanted: int, ceiling: int)
    ensures Gained(w, Shed(tick, after), wanted, ceiling, true) <==> w.shed(tick, w.memory(tick) + wanted - ceiling, true) != (0, 0)
  {
  }

  /** The second shedding, which drops what is not on disk yet, is looked at again exactly if it gained
      something; and without it no model is refused for want of memory, or admitted alone. */
  ghost predicate ShedFirst(w: World, v: Verdict, sheds: seq<Shed>, tick: nat, wanted: int, ceiling: int) {
    && (|sheds| == 2 ==> (sheds[1].tick < tick <==> Gained(w, sheds[1], wanted, ceiling, true)))
    && (v.Alone? || v.Insufficient? ==> |sheds| == 2) && (v.TooLarge? ==> sheds == [])
  }

  lemma ShedLater(w: World, es: map<string, Entry>, size: int, wanted: int, ceiling: int, picks: seq<Pick>,
                  sheds: seq<Shed>, lo: nat, hi: nat, now: nat)
    requires ShedAtNeed(w, es, size, wanted, ceiling, picks, sheds, lo, hi) && hi <= now
    ensures ShedAtNeed(w, es, size, wanted, ceiling, picks, sheds, lo, now)
  {
    hide Without, Evictable;
  }

  lemma ShedThenPicked(w: World, es: map<string, Entry>, size: int, wanted: int, ceiling: int, picks: seq<Pick>,
                       sheds: seq<Shed>, lo: nat, hi: nat, pick: Pick, now: nat)
    requires ShedAtNeed(w, es, size, wanted, ceiling, picks, sheds, lo, hi) && hi < pick.tick <= now
    ensures ShedAtNeed(w, es, size, wanted, ceiling, picks + [pick], sheds, lo, now)
  {
    hide Without, Evictable;
    forall h | h in sheds ensures h.after <= |picks| && (picks + [pick])[..h.after] == picks[..h.after] {}
  }

  lemma ShedNow(w: World, es: map<string, Entry>, size: int, wanted: int, ceiling: int, picks: seq<Pick>,
                sheds: seq<Shed>, lo: nat, hi: nat, now: nat)
    requires ShedAtNeed(w, es, size, wanted, ceiling, picks, sheds, lo, hi) && |sheds| < 2 && lo <= hi < now
    requires forall j :: 0 <= j < |picks| ==> picks[j].tick <= hi
    requires size <= ceiling < w.memory(now) + wanted && forall o :: !Evictable(Without(es, picks), w, now, o)
    ensures ShedAtNeed(w, es, size, wanted, ceiling, picks, sheds + [Shed(now, |picks|)], lo, now)
  {
    hide Without, Evictable;
    assert picks[..|picks|] == picks;
  }

  /** A verdict without another shedding. */
  lemma DecidedWithout(w: World, es: map<string, Entry>, size: int, wanted: int, ceiling: int, picks: seq<Pick>,
                       sheds: seq<Shed>, lo: nat, tick: nat, v: Verdict)
    requires 1 <= tick && ShedAtNeed(w, es, size, wanted, ceiling, picks, sheds, lo, tick - 1)
    requires |sheds| == 2 ==> Gained(w, sheds[1], wanted, ceiling, true)
    requires (v.Alone? || v.Insufficient? ==> |sheds| == 2) && (v.TooLarge? ==> size > ceiling)
    ensures ShedAtNeed(w, es, size, wanted, ceiling, picks, sheds, lo, tick) && ShedFirst(w, v, sheds, tick, wanted, ceiling)
  {
    ShedLater(w, es, size, wanted, ceiling, picks, sheds, lo, tick - 1, tick);
    if |sheds| > 0 { assert sheds[0] in sheds; }
    if |sheds| == 2 { assert sheds[1] in sheds; }
    hide Without, Evictable, Gained;
  }

  /** A verdict when the second shedding gained nothing. */
  lemma DecidedAfter(w: World, es: map<string, Entry>, size: int, wanted: int, ceiling: int, picks: seq<Pick>,
                     sheds: seq<Shed>, lo: nat, tick: nat, v: Verdict)
    requires ShedAtNeed(w, es, size, wanted, ceiling, picks, sheds, lo, tick)
    requires |sheds| == 2 && sheds[1].tick == tick && !Gained(w, sheds[1], wanted, ceiling, true) && !v.TooLarge?
    ensures ShedFirst(w, v, sheds, tick, wanted, ceiling)
  {
  }

  /** An admission under way: some models have been evicted, each as the last resort it was. */
  ghost predicate Admitting(w: World, s: State, id: string, wanted: int, ceiling: int, picks: seq<Pick>, m: State) {
    && Consistent(m) && Evicted(s, picks, m) && Picked(s.entries, picks, w, s.tick, m.tick) && Needed(picks, w, wanted, ceiling)
    && id in m.entries && m.entries[id].engine.None? && id in s.entries && m.entries[id] == s.entries[id]
  }

  lemma AdmittingPicks(w: World, s: State, id: string, wanted: int, ceiling: int, picks: seq<Pick>, m: State)
    requires Admitting(w, s, id, wanted, ceiling, picks, m)
    ensures m.entries == Without(s.entries, picks) && s.tick <= m.tick
    ensures forall j :: 0 <= j < |picks| ==> picks[j].tick <= m.tick
  {
    hide LoadedSize, IsVictim, Without, Consistent;
  }

  lemma AdmittingFacts(w: World, s: State, id: string, wanted: int, ceiling: int, picks: seq<Pick>, m: State)
    requires Admitting(w, s, id, wanted, ceiling, picks, m)
    ensures Consistent(m) && id in m.entries && id in s.entries && m.entries[id] == s.entries[id]
  {
  }

  lemma AdmittingLater(w: World, s: State, id: string, wanted: int, ceiling: int, picks: seq<Pick>, m: State)
    requires Admitting(w, s, id, wanted, ceiling, picks, m)
    ensures Admitting(w, s, id, wanted, ceiling, picks, m.(tick := m.tick + 1))
  {
    PickedLonger(s.entries, picks, w, s.tick, m.tick, m.tick + 1);
    UseKeeps(m, m.entries, m.tick + 1);
    hide LoadedSize, Picked, Without;
  }

  lemma AdmittingEvicts(w: World, s: State, id: string, wanted: int, ceiling: int, picks: seq<Pick>, m: State, victim: string)
    requires m.tick >= 1 && Admitting(w, s, id, wanted, ceiling, picks, m.(tick := m.tick - 1))
    requires IsVictim(m.entries, w, m.tick, victim) && ceiling < w.memory(m.tick) + wanted
    ensures Admitting(w, s, id, wanted, ceiling, picks + [Pick(m.tick, victim)], Unload(m, victim))
    ensures |LoadedIds(Unload(m, victim).entries)| < |LoadedIds(m.entries)|
  {
    UseKeeps(m.(tick := m.tick - 1), m.entries, m.tick);
    assert m == m.(tick := m.tick - 1).(entries := m.entries, tick := m.tick);
    EvictedOneMore(s, picks, w, s.tick, m.tick - 1, m, victim);
    VictimIsLoaded(m.entries, w, m.tick, victim);
    hide LoadedSize, Picked, Without, IsVictim, LoadedIds, Consistent;
    assert |LoadedIds(m.entries) - {victim}| < |LoadedIds(m.entries)|;
  }

  lemma AdmittingStarts(w: World, s: State, id: string, wanted: int, ceiling: int)
    requires Consistent(s) && id in s.entries && s.entries[id].engine.None?
    ensures Admitting(w, s, id, wanted, ceiling, [], s)
  {
    WithoutNobody(s.entries);
  }

  /** Ceiling and headroom are read first; without a ceiling everything is admitted; otherwise
      models are evicted one by one, while the usage read at that moment leaves no room, until a
      verdict is justified by the last reading. */
  ghost predicate Admitted(w: World, s: State, id: string, adm: Admission, t: State)
    requires id in s.entries
  {
    var ceiling, headroom := w.ceiling(s.tick + 1), HeadroomAt(w, s.tick + 1, s.entries[id]);
    && Evicted(s, adm.picks, t)
    && if ceiling <= 0 then adm == Admission([], [], None) && t.tick == s.tick + 1
       else
         && Picked(s.entries, adm.picks, w, s.tick + 1, t.tick)
         && Needed(adm.picks, w, s.entries[id].size + headroom, ceiling)
         && adm.verdict.Some? && Justified(adm.verdict.value, t.entries, w, t.tick, id, headroom, ceiling)
         && ShedAtNeed(w, s.entries, s.entries[id].size, s.entries[id].size + headroom, ceiling, adm.picks, adm.sheds,
                       s.tick + 1, t.tick)
         && ShedFirst(w, adm.verdict.value, adm.sheds, t.tick, s.entries[id].size + headroom, ceiling)
  }

  /** The admission loop before a look at the memory: as many sheddings as the stage says, and the second
      one worth that look. */
  ghost predicate UnderWay(w: World, s: State, id: string, wanted: int, ceiling: int, picks: seq<Pick>, sheds: seq<Shed>,
                           stage: nat, m: State) {
    && Admitting(w, s, id, wanted, ceiling, picks, m) && |sheds| == stage && s.tick <= m.tick
    && ShedAtNeed(w, s.entries, s.entries[id].size, wanted, ceiling, picks, sheds, s.tick, m.tick)
    && (stage == 2 ==> Gained(w, sheds[1], wanted, ceiling, true))
  }

  /** And right after it. */
  ghost predicate Looked(w: World, s: State, id: string, wanted: int, ceiling: int, picks: seq<Pick>, sheds: seq<Shed>,
                         stage: nat, m: State) {
    && m.tick >= 1 && UnderWay(w, s, id, wanted, ceiling, picks, sheds, stage, m.(tick := m.tick - 1))
    && Admitting(w, s, id, wanted, ceiling, picks, m)
  }

  /** The loop at its end. */
  ghost predicate Concluded(w: World, s: State, id: string, headroom: int, ceiling: int, picks: seq<Pick>, sheds: seq<Shed>,
                            v: Verdict, m: State) {
    && id in s.entries && id in m.entries
    && var wanted := s.entries[id].size + headroom;
    && Admitting(w, s, id, wanted, ceiling, picks, m) && Justified(v, m.entries, w, m.tick, id, headroom, ceiling)
    && ShedAtNeed(w, s.entries, s.entries[id].size, wanted, ceiling, picks, sheds, s.tick, m.tick)
    && ShedFirst(w, v, sheds, m.tick, wanted, ceiling)
  }

  /** The loop at either point. */
  ghost predicate Admits(w: World, s: State, id: string, headroom: int, ceiling: int, picks: seq<Pick>, sheds: seq<Shed>,
                         stage: nat, v: Verdict, going: bool, m: State) {
    && id in s.entries && stage <= 2
    && if going then UnderWay(w, s, id, s.entries[id].size + headroom, ceiling, picks, sheds, stage, m)
       else Concluded(w, s, id, headroom, ceiling, picks, sheds, v, m)
  }

  /** What is left to do: engines to evict, and sheddings. */
  ghost function Left(es: map<string, Entry>, stage: nat): int { 3 * |LoadedIds(es)| + 2 - stage }

  lemma UnderWayStarts(w: World, s: State, id: string, wanted: int, ceiling: int)
    requires Consistent(s) && id in s.entries && s.entries[id].engine.None?
    ensures UnderWay(w, s, id, wanted, ceiling, [], [], 0, s)
  {
    AdmittingStarts(w, s, id, wanted, ceiling);
    hide Admitting;
  }

  lemma Looking(w: World, s: State, id: string, wanted: int, ceiling: int, picks: seq<Pick>, sheds: seq<Shed>, stage: nat, m: State)
    requires UnderWay(w, s, id, wanted, ceiling, picks, sheds, stage, m)
    ensures var n := m.(tick := m.tick + 1);
      && Looked(w, s, id, wanted, ceiling, picks, sheds, stage, n) && Consistent(n) && stage <= 2
      && id in m.entries && id in s.entries && m.entries[id] == s.entries[id]
  {
    AdmittingLater(w, s, id, wanted, ceiling, picks, m);
    AdmittingFacts(w, s, id, wanted, ceiling, picks, m.(tick := m.tick + 1));
    assert m.(tick := m.tick + 1).(tick := m.tick) == m;
    hide Admitting, Gained, Consistent;
  }

  lemma UnderWayEvicts(w: World, s: State, id: string, wanted: int, ceiling: int, picks: seq<Pick>, sheds: seq<Shed>, stage: nat,
                       m: State, victim: string)
    requires Looked(w, s, id, wanted, ceiling, picks, sheds, stage, m)
    requires IsVictim(m.entries, w, m.tick, victim) && ceiling < w.memory(m.tick) + wanted
    ensures UnderWay(w, s, id, wanted, ceiling, picks + [Pick(m.tick, victim)], sheds, stage, Unload(m, victim))
    ensures |LoadedIds(Unload(m, victim).entries)| < |LoadedIds(m.entries)|
  {
    AdmittingEvicts(w, s, id, wanted, ceiling, picks, m, victim);
    VictimIsLoaded(m.entries, w, m.tick, victim);
    hide Admitting, IsVictim, LoadedIds, Gained, ShedAtNeed;
    ShedThenPicked(w, s.entries, s.entries[id].size, wanted, ceiling, picks, sheds, s.tick, m.tick - 1,
                   Pick(m.tick, victim), m.tick + 1);
  }

  /** Nothing can be evicted, and the model, which could fit, does not. */
  ghost predicate Stuck(w: World, id: string, wanted: int, ceiling: int, m: State)
    requires id in m.entries
  {
    m.entries[id].size <= ceiling < w.memory(m.tick) + wanted && forall o :: !Evictable(m.entries, w, m.tick, o)
  }

  lemma UnderWaySheds(w: World, s: State, id: string, wanted: int, ceiling: int, picks: seq<Pick>, sheds: seq<Shed>, stage: nat,
                      m: State)
    requires Looked(w, s, id, wanted, ceiling, picks, sheds, stage, m) && stage < 2
    requires id in m.entries && id in s.entries && m.entries[id] == s.entries[id] && Stuck(w, id, wanted, ceiling, m)
    ensures var h := Shed(m.tick, |picks|);
      && ShedAtNeed(w, s.entries, s.entries[id].size, wanted, ceiling, picks, sheds + [h], s.tick, m.tick)
      && (stage == 0 || Gained(w, h, wanted, ceiling, true) ==> UnderWay(w, s, id, wanted, ceiling, picks, sheds + [h], stage + 1, m))
  {
    hide Admitting, Gained, Evictable, ShedAtNeed, Consistent;
    AdmittingPicks(w, s, id, wanted, ceiling, picks, m.(tick := m.tick - 1));
    ShedNow(w, s.entries, s.entries[id].size, wanted, ceiling, picks, sheds, s.tick, m.tick - 1, m.tick);
  }

  lemma ConcludesAfter(w: World, s: State, id: string, headroom: int, ceiling: int, picks: seq<Pick>, sheds: seq<Shed>, v: Verdict,
                       m: State)
    requires id in s.entries && id in m.entries && m.entries[id] == s.entries[id]
    requires Looked(w, s, id, s.entries[id].size + headroom, ceiling, picks, sheds, 1, m)
    requires Stuck(w, id, s.entries[id].size + headroom, ceiling, m)
    requires !Gained(w, Shed(m.tick, |picks|), s.entries[id].size + headroom, ceiling, true)
    requires Justified(v, m.entries, w, m.tick, id, headroom, ceiling)
    ensures Concluded(w, s, id, headroom, ceiling, picks, sheds + [Shed(m.tick, |picks|)], v, m)
  {
    hide *;
    StuckIsSmall(w, id, headroom, ceiling, v, m);
    LookedFacts(w, s, id, s.entries[id].size + headroom, ceiling, picks, sheds, 1, m);
    UnderWaySheds(w, s, id, s.entries[id].size + headroom, ceiling, picks, sheds, 1, m);
    DecidedAfter(w, s.entries, s.entries[id].size, s.entries[id].size + headroom, ceiling, picks, sheds + [Shed(m.tick, |picks|)],
                 s.tick, m.tick, v);
    ConcludedBy(w, s, id, headroom, ceiling, picks, sheds + [Shed(m.tick, |picks|)], v, m);
  }

  lemma StuckIsSmall(w: World, id: string, headroom: int, ceiling: int, v: Verdict, m: State)
    requires id in m.entries && Stuck(w, id, m.entries[id].size + headroom, ceiling, m)
    requires Justified(v, m.entries, w, m.tick, id, headroom, ceiling)
    ensures !v.TooLarge?
  {
  }

  lemma LookedFacts(w: World, s: State, id: string, wanted: int, ceiling: int, picks: seq<Pick>, sheds: seq<Shed>, stage: nat, m: State)
    requires Looked(w, s, id, wanted, ceiling, picks, sheds, stage, m)
    ensures |sheds| == stage && Admitting(w, s, id, wanted, ceiling, picks, m)
  {
  }

  lemma ConcludedBy(w: World, s: State, id: string, headroom: int, ceiling: int, picks: seq<Pick>, sheds: seq<Shed>, v: Verdict, m: State)
    requires id in s.entries && id in m.entries
    requires Admitting(w, s, id, s.entries[id].size + headroom, ceiling, picks, m)
    requires Justified(v, m.entries, w, m.tick, id, headroom, ceiling)
    requires ShedAtNeed(w, s.entries, s.entries[id].size, s.entries[id].size + headroom, ceiling, picks, sheds, s.tick, m.tick)
    requires ShedFirst(w, v, sheds, m.tick, s.entries[id].size + headroom, ceiling)
    ensures Concluded(w, s, id, headroom, ceiling, picks, sheds, v, m)
  {
  }

  lemma ConcludesWithout(w: World, s: State, id: string, headroom: int, ceiling: int, picks: seq<Pick>, sheds: seq<Shed>, stage: nat,
                         v: Verdict, m: State)
    requires id in s.entries && id in m.entries && m.entries[id] == s.entries[id]
    requires Looked(w, s, id, s.entries[id].size + headroom, ceiling, picks, sheds, stage, m)
    requires stage == 2 || !Stuck(w, id, s.entries[id].size + headroom, ceiling, m)
    requires Justified(v, m.entries, w, m.tick, id, headroom, ceiling)
    ensures Concluded(w, s, id, headroom, ceiling, picks, sheds, v, m)
  {
    var wanted := s.entries[id].size + headroom;
    hide *;
    JustifiedMeans(w, id, headroom, ceiling, v, m);
    LookedFacts(w, s, id, wanted, ceiling, picks, sheds, stage, m);
    LookedSheds(w, s, id, wanted, ceiling, picks, sheds, stage, m);
    DecidedWithout(w, s.entries, s.entries[id].size, wanted, ceiling, picks, sheds, s.tick, m.tick, v);
    ConcludedBy(w, s, id, headroom, ceiling, picks, sheds, v, m);
  }

  lemma LookedSheds(w: World, s: State, id: string, wanted: int, ceiling: int, picks: seq<Pick>, sheds: seq<Shed>, stage: nat,
                    m: State)
    requires Looked(w, s, id, wanted, ceiling, picks, sheds, stage, m) && id in s.entries
    ensures m.tick >= 1 && |sheds| == stage
    ensures ShedAtNeed(w, s.entries, s.entries[id].size, wanted, ceiling, picks, sheds, s.tick, m.tick - 1)
    ensures stage == 2 ==> Gained(w, sheds[1], wanted, ceiling, true)
  {
    hide Admitting, ShedAtNeed, Gained;
  }

  lemma JustifiedMeans(w: World, id: string, headroom: int, ceiling: int, v: Verdict, m: State)
    requires id in m.entries && Justified(v, m.entries, w, m.tick, id, headroom, ceiling)
    ensures v.Alone? || v.Insufficient? ==> Stuck(w, id, m.entries[id].size + headroom, ceiling, m)
    ensures v.TooLarge? ==> m.entries[id].size > ceiling
  {
  }

  lemma AdmittedFreely(w: World, s: State, id: string)
    requires id in s.entries && w.ceiling(s.tick + 1) <= 0
    ensures Admitted(w, s, id, Admission([], [], None), s.(tick := s.tick + 1))
  {
    WithoutNobody(s.entries);
    hide LoadedSize;
  }

  lemma AdmittedUnder(w: World, s: State, id: string, picks: seq<Pick>, sheds: seq<Shed>, v: Verdict, t: State)
    requires id in s.entries && w.ceiling(s.tick + 1) > 0
    requires Concluded(w, s.(tick := s.tick + 1), id, HeadroomAt(w, s.tick + 1, s.entries[id]), w.ceiling(s.tick + 1),
                       picks, sheds, v, t)
    ensures Admitted(w, s, id, Admission(picks, sheds, Some(v)), t) && Consistent(t)
    ensures id in t.entries && t.entries[id] == s.entries[id]
  {
    hide LoadedSize, Picked, Justified, Needed, Without, Consistent, ShedAtNeed, ShedFirst;
  }

  /** get_engine up to the wait for the engine to start; None while that is under way. */
  ghost predicate Got(w: World, s: State, id: string, forceLm: bool, adm: Admission, answer: Option<Answer>, t: State) {
    if id !in s.entries then answer == Some(NotFound) && t == s
    else if JobManaged(s.entries[id]) then answer == Some(NotLoadable) && t == s
    else if Serves(s.entries, id, forceLm) then
      && answer == Some(Ready(s.entries[id].engine.value))
      && t == s.(tick := s.tick + 1, entries := s.entries[id := s.entries[id].(lastAccess := w.clock(s.tick + 1))])
    else exists m: State :: Admitted(w, Unload(s, id), id, adm, m) && Proceeds(m, id, forceLm, adm, answer, t)
  }

  ghost predicate Proceeds(m: State, id: string, forceLm: bool, adm: Admission, answer: Option<Answer>, t: State) {
    if adm.verdict.Some? && (adm.verdict.value.TooLarge? || adm.verdict.value.Insufficient?) then
      answer == Some(Refused(adm.verdict.value)) && t == m
    else if id in m.entries && m.entries[id].loading then answer == Some(AlreadyLoading) && t == m
    else id in m.entries && answer == None && t == BeginLoad(m, id, forceLm, true)
  }

  /** This much is free under the ceiling for the weights of a model, and for the working memory of one that
      generates text as well, if any is asked for. */
  predicate Reserved(e: Entry, usage: int, headroom: int, ceiling: int) {
    usage + e.size <= ceiling && (e.kind in {Batched, Vlm, HrmText} ==> usage + e.size + headroom <= ceiling)
  }

  /** Under a ceiling the verdict is a fit exactly if the last reading leaves that much room. */
  lemma FitLeavesRoom(w: World, s: State, id: string, adm: Admission, t: State)
    requires id in s.entries && Admitted(w, s, id, adm, t) && w.ceiling(s.tick + 1) > 0
    ensures adm.verdict.Some?
    ensures adm.verdict.value.Fit? <==> Reserved(s.entries[id], w.memory(t.tick), w.headroom(s.tick + 1), w.ceiling(s.tick + 1))
  {
    hide LoadedSize, Picked, Needed, ShedAtNeed, ShedFirst, Evictable;
  }

  /** A load that begins has that much room; or nothing else is loaded, and its weights fit; or there is no
      ceiling. A model that was not loaded is refused only if it does not have it. */
  lemma BegunFits(w: World, s: State, id: string, forceLm: bool, adm: Admission, answer: Option<Answer>, t: State)
    requires Got(w, s, id, forceLm, adm, answer, t) && id in s.entries && s.entries[id].engine.None? && !JobManaged(s.entries[id])
    ensures var e, usage, ceiling := s.entries[id], w.memory(t.tick), w.ceiling(s.tick + 1);
      var roomy := Reserved(e, usage, w.headroom(s.tick + 1), ceiling);
      && (answer.None? ==>
            || ceiling <= 0 || roomy
            || (usage + e.size <= ceiling && forall o <- t.entries :: t.entries[o].engine.Some? ==> o == id))
      && (answer.Some? && answer.value.Refused? ==> ceiling > 0 && !roomy)
  {
    assert Unload(s, id) == s;
    var m: State :| Admitted(w, s, id, adm, m) && Proceeds(m, id, forceLm, adm, answer, t);
    hide Got, Admitted, Reserved, JobManaged;
    AdmittedRoom(w, s, id, adm, m);
    hide *;
    ProceedsAs(m, id, forceLm, adm, answer, t);
  }

  /** The state after an admission, by its verdict. */
  lemma AdmittedRoom(w: World, s: State, id: string, adm: Admission, m: State)
    requires id in s.entries && Admitted(w, s, id, adm, m)
    ensures var e, usage, ceiling := s.entries[id], w.memory(m.tick), w.ceiling(s.tick + 1);
      var roomy := Reserved(e, usage, w.headroom(s.tick + 1), ceiling);
      && (adm.verdict.None? <==> ceiling <= 0) && (adm.verdict.Some? ==> (adm.verdict.value.Fit? <==> roomy))
      && (adm.verdict.Some? && adm.verdict.value.Alone? ==>
            usage + e.size <= ceiling && forall o <- m.entries :: m.entries[o].engine.Some? ==> o == id)
  {
    if w.ceiling(s.tick + 1) > 0 { FitLeavesRoom(w, s, id, adm, m); }
    hide LoadedSize, Picked, Needed, ShedAtNeed, ShedFirst, HeadroomAt, Reserved;
  }

  lemma ProceedsAs(m: State, id: string, forceLm: bool, adm: Admission, answer: Option<Answer>, t: State)
    requires Proceeds(m, id, forceLm, adm, answer, t)
    ensures t.tick == m.tick && (answer.None? ==> t.entries.Keys == m.entries.Keys)
    ensures answer.None? ==> forall o <- m.entries :: t.entries[o].engine == m.entries[o].engine
    ensures answer.Some? && answer.value.Refused? ==> adm.verdict.Some? && !adm.verdict.value.Fit?
    ensures answer.None? ==> adm.verdict.None? || adm.verdict.value.Fit? || adm.verdict.value.Alone?
  {
  }

  /** Models of videos and images, which are run as jobs, are turned away before anything is evicted, and only
      they and unknown ones are. */
  lemma TurnedAway(w: World, s: State, id: string, forceLm: bool, adm: Admission, answer: Option<Answer>, t: State)
    requires Got(w, s, id, forceLm, adm, answer, t)
    ensures answer == Some(NotFound) <==> id !in s.entries
    ensures answer == Some(NotLoadable) <==> id in s.entries && s.entries[id].model in {Video, VideoUpscaler, Image}
    ensures answer in {Some(NotFound), Some(NotLoadable)} ==> t == s
  {
    if id in s.entries && !JobManaged(s.entries[id]) && !Serves(s.entries, id, forceLm) {
      var m: State :| Admitted(w, Unload(s, id), id, adm, m) && Proceeds(m, id, forceLm, adm, answer, t);
      hide Admitted;
    }
  }

  // ---------- expiry and shutdown ----------

  /** Loaded, neither pinned nor being loaded, and idle for its time to live or longer. */
  predicate Expired(es: map<string, Entry>, ttl: map<string, int>, fallback: Option<int>, now: int, id: string) {
    && id in es && es[id].engine.Some? && !es[id].loading && !es[id].pinned
    && (id in ttl || fallback.Some?)
    && now - es[id].lastAccess >= if id in ttl then ttl[id] else fallback.value
  }

  /** What the check made of one entry: was before, is after. An expired one had its turn at tick at
      and was unloaded if it was idle then, and refreshed otherwise. */
  ghost predicate TtlTreated(w: World, id: string, was: Entry, after: Entry, expired: bool, now: int, gone: bool,
                             at: Option<nat>, lo: nat, hi: nat) {
    if !expired then at.None? && !gone && after == was
    else
      && at.Some? && lo < at.value <= hi && (gone <==> !w.active(at.value, id))
      && after == if gone then Unloaded(was) else was.(lastAccess := now)
  }

  function Turn(at: map<string, nat>, id: string): Option<nat> { if id in at then Some(at[id]) else None }

  /** The time to live of a model, if it has one. */
  function Lifetime(id: string, ttl: map<string, int>, fallback: Option<int>): Option<int> {
    if id in ttl then Some(ttl[id]) else fallback
  }

  /** The check looks at exactly the loaded models that are neither pinned nor being loaded and have not been
      used for their time to live: it unloads the idle ones and counts the others as used just now; nothing
      else about any model changes. */
  lemma TtlByClock(w: World, s: State, ttl: map<string, int>, fallback: Option<int>, gone: set<string>, at: map<string, nat>,
                   t: State, id: string)
    requires TtlChecked(w, s, ttl, fallback, gone, at, t) && id in s.entries
    ensures var e, f, now, life := s.entries[id], t.entries[id], w.clock(s.tick + 1), Lifetime(id, ttl, fallback);
      && (id in at <==> e.engine.Some? && !e.pinned && !e.loading && life.Some? && e.lastAccess + life.value <= now)
      && (id in gone <==> id in at && !w.active(at[id], id))
      && (id in gone ==> f.engine.None?) && (id in at && id !in gone ==> f == e.(lastAccess := now)) && (id !in at ==> f == e)
  {
    assert TtlTreated(w, id, s.entries[id], t.entries[id], Expired(s.entries, ttl, fallback, w.clock(s.tick + 1), id),
                      w.clock(s.tick + 1), id in gone, Turn(at, id), s.tick, t.tick);
    hide LoadedSize;
  }

  /** The check with some entries still to come. */
  ghost predicate TtlUnderway(w: World, s: State, ttl: map<string, int>, fallback: Option<int>, gone: set<string>,
                              at: map<string, nat>, todo: set<string>, t: State) {
    var now := w.clock(s.tick + 1);
    && t == s.(tick := t.tick, entries := t.entries, memory := t.memory)
    && s.tick < t.tick && t.memory - LoadedSize(t.entries) == s.memory - LoadedSize(s.entries)
    && t.entries.Keys == s.entries.Keys
    && forall id <- s.entries ::
         TtlTreated(w, id, s.entries[id], t.entries[id], id !in todo && Expired(s.entries, ttl, fallback, now, id), now,
                    id in gone, Turn(at, id), s.tick, t.tick)
  }

  /** check_ttl_expirations. */
  ghost predicate TtlChecked(w: World, s: State, ttl: map<string, int>, fallback: Option<int>, gone: set<string>,
                             at: map<string, nat>, t: State) {
    TtlUnderway(w, s, ttl, fallback, gone, at, {}, t)
  }

  lemma TtlStarts(w: World, s: State, ttl: map<string, int>, fallback: Option<int>)
    ensures TtlUnderway(w, s, ttl, fallback, {}, map[], s.entries.Keys, s.(tick := s.tick + 1))
  {
  }

  /** The turn of one entry: unexpired, idle or busy. */
  lemma TtlSkips(w: World, s: State, ttl: map<string, int>, fallback: Option<int>, gone: set<string>, at: map<string, nat>,
                 todo: set<string>, m: State, id: string)
    requires TtlUnderway(w, s, ttl, fallback, gone, at, todo, m) && id in todo && id in s.entries
    ensures m.entries[id] == s.entries[id] && id !in gone && id !in at
    ensures !Expired(s.entries, ttl, fallback, w.clock(s.tick + 1), id) ==>
      TtlUnderway(w, s, ttl, fallback, gone, at, todo - {id}, m)
  {
    var now := w.clock(s.tick + 1);
    assert TtlTreated(w, id, s.entries[id], m.entries[id], false, now, id in gone, Turn(at, id), s.tick, m.tick);
    hide LoadedSize, Expired;
    forall o | o in s.entries && o != id
      ensures TtlTreated(w, o, s.entries[o], m.entries[o], o !in todo - {id} && Expired(s.entries, ttl, fallback, now, o), now,
                         o in gone, Turn(at, o), s.tick, m.tick)
    {
      assert o in todo - {id} <==> o in todo;
    }
  }

  lemma TtlTurn(w: World, s: State, ttl: map<string, int>, fallback: Option<int>, gone: set<string>, at: map<string, nat>,
                todo: set<string>, m: State, id: string, gone': set<string>, turn: nat, t: State)
    requires TtlUnderway(w, s, ttl, fallback, gone, at, todo, m) && id in todo && id in s.entries
    requires Expired(s.entries, ttl, fallback, w.clock(s.tick + 1), id) && (gone' == gone || gone' == gone + {id})
    requires t == m.(tick := t.tick, entries := t.entries, memory := t.memory) && m.tick <= t.tick
    requires t.memory - LoadedSize(t.entries) == m.memory - LoadedSize(m.entries)
    requires t.entries.Keys == m.entries.Keys && forall o <- m.entries :: o != id ==> t.entries[o] == m.entries[o]
    requires TtlTreated(w, id, s.entries[id], t.entries[id], true, w.clock(s.tick + 1), id in gone', Some(turn), s.tick, t.tick)
    ensures TtlUnderway(w, s, ttl, fallback, gone', at[id := turn], todo - {id}, t)
  {
    var now := w.clock(s.tick + 1);
    TtlFrame(w, s, ttl, fallback, gone, at, todo, m);
    hide TtlUnderway, LoadedSize, Expired, TtlTreated, Turn;
    TtlOthers(w, s, ttl, fallback, gone, at, todo, m, id, gone', turn, t);
    assert Turn(at[id := turn], id) == Some(turn) by { TurnTaken(at, id, turn); }
    TtlAssembled(w, s, ttl, fallback, gone', at[id := turn], todo - {id}, t);
  }

  lemma TurnTaken(at: map<string, nat>, id: string, turn: nat)
    ensures Turn(at[id := turn], id) == Some(turn)
  {
  }

  /** The check leaves everything else alone. */
  ghost predicate TtlAround(s: State, t: State) {
    && t == s.(tick := t.tick, entries := t.entries, memory := t.memory)
    && s.tick < t.tick && t.memory - LoadedSize(t.entries) == s.memory - LoadedSize(s.entries)
    && t.entries.Keys == s.entries.Keys
  }

  lemma TtlFrame(w: World, s: State, ttl: map<string, int>, fallback: Option<int>, gone: set<string>, at: map<string, nat>,
                 todo: set<string>, m: State)
    requires TtlUnderway(w, s, ttl, fallback, gone, at, todo, m)
    ensures TtlAround(s, m)
  {
  }

  lemma TtlAssembled(w: World, s: State, ttl: map<string, int>, fallback: Option<int>, gone: set<string>, at: map<string, nat>,
                     todo: set<string>, t: State)
    requires TtlAround(s, t)
    requires var now := w.clock(s.tick + 1);
      forall id <- s.entries ::
        TtlTreated(w, id, s.entries[id], t.entries[id], id !in todo && Expired(s.entries, ttl, fallback, now, id), now,
                   id in gone, Turn(at, id), s.tick, t.tick)
    ensures TtlUnderway(w, s, ttl, fallback, gone, at, todo, t)
  {
  }

  lemma TtlEvicts(w: World, s: State, ttl: map<string, int>, fallback: Option<int>, gone: set<string>, at: map<string, nat>,
                  todo: set<string>, m: State, id: string)
    requires TtlUnderway(w, s, ttl, fallback, gone, at, todo, m) && id in todo && id in s.entries
    requires Expired(s.entries, ttl, fallback, w.clock(s.tick + 1), id) && !w.active(m.tick, id)
    ensures TtlUnderway(w, s, ttl, fallback, gone + {id}, at[id := m.tick], todo - {id}, Unload(m, id))
  {
    var t := Unload(m, id);
    TtlSkips(w, s, ttl, fallback, gone, at, todo, m, id);
    TtlTicks(w, s, ttl, fallback, gone, at, todo, m, id);
    UnloadedSize(m.entries, id);
    assert TtlTreated(w, id, s.entries[id], t.entries[id], true, w.clock(s.tick + 1), true, Some(m.tick), s.tick, t.tick);
    hide TtlUnderway, LoadedSize, LoadedIds, Expired, TtlTreated;
    TtlTurn(w, s, ttl, fallback, gone, at, todo, m, id, gone + {id}, m.tick, t);
  }

  lemma TtlTicks(w: World, s: State, ttl: map<string, int>, fallback: Option<int>, gone: set<string>, at: map<string, nat>,
                 todo: set<string>, m: State, id: string)
    requires TtlUnderway(w, s, ttl, fallback, gone, at, todo, m) && id in s.entries
    requires Expired(s.entries, ttl, fallback, w.clock(s.tick + 1), id)
    ensures s.tick < m.tick && id in m.entries && s.entries[id].engine.Some?
  {
  }

  lemma TtlRefreshes(w: World, s: State, ttl: map<string, int>, fallback: Option<int>, gone: set<string>, at: map<string, nat>,
                     todo: set<string>, m: State, id: string)
    requires TtlUnderway(w, s, ttl, fallback, gone, at, todo, m) && id in todo && id in s.entries
    requires Expired(s.entries, ttl, fallback, w.clock(s.tick + 1), id) && w.active(m.tick, id)
    ensures TtlUnderway(w, s, ttl, fallback, gone, at[id := m.tick], todo - {id},
                        m.(entries := m.entries[id := m.entries[id].(lastAccess := w.clock(s.tick + 1))]))
  {
    var t := m.(entries := m.entries[id := m.entries[id].(lastAccess := w.clock(s.tick + 1))]);
    TtlSkips(w, s, ttl, fallback, gone, at, todo, m, id);
    TtlTicks(w, s, ttl, fallback, gone, at, todo, m, id);
    TouchedSize(m.entries, id, w.clock(s.tick + 1));
    assert TtlTreated(w, id, s.entries[id], t.entries[id], true, w.clock(s.tick + 1), false, Some(m.tick), s.tick, t.tick);
    hide TtlUnderway, LoadedSize, LoadedIds, Expired, TtlTreated;
    TtlTurn(w, s, ttl, fallback, gone, at, todo, m, id, gone, m.tick, t);
  }

  lemma TouchedSize(es: map<string, Entry>, id: string, now: int)
    requires id in es
    ensures LoadedSize(es[id := es[id].(lastAccess := now)]) == LoadedSize(es)
  {
    assert LoadedIds(es) == LoadedIds(es[id := es[id].(lastAccess := now)]);
    SameLoadsSameSize(es, es[id := es[id].(lastAccess := now)]);
  }

  lemma TtlOthers(w: World, s: State, ttl: map<string, int>, fallback: Option<int>, gone: set<string>, at: map<string, nat>,
                  todo: set<string>, m: State, id: string, gone': set<string>, turn: nat, t: State)
    requires TtlUnderway(w, s, ttl, fallback, gone, at, todo, m) && id in s.entries
    requires t.entries.Keys == m.entries.Keys && m.tick <= t.tick && (forall o <- m.entries :: o != id ==> t.entries[o] == m.entries[o])
    requires gone' == gone || gone' == gone + {id}
    ensures var now := w.clock(s.tick + 1);
      forall o <- s.entries :: o != id ==>
        TtlTreated(w, o, s.entries[o], t.entries[o], o !in todo - {id} && Expired(s.entries, ttl, fallback, now, o), now,
                   o in gone', Turn(at[id := turn], o), s.tick, t.tick)
  {
    hide LoadedSize, Expired;
    forall o | o in s.entries && o != id
      ensures o in gone' <==> o in gone
      ensures o in todo - {id} <==> o in todo
      ensures Turn(at[id := turn], o) == Turn(at, o)
    {
    }
  }

  function AllUnloaded(es: map<string, Entry>): map<string, Entry> {
    map id <- es :: if es[id].engine.Some? then Unloaded(es[id]) else es[id]
  }

  /** shutdown: everything is unloaded, and only what was lost is still counted. */
  ghost predicate ShutDown(s: State, t: State) {
    t == s.(tick := t.tick, entries := AllUnloaded(s.entries), memory := s.lost) && s.tick <= t.tick
  }

  /** Everything but what is still to come is unloaded. */
  ghost predicate ClosingDown(s: State, todo: set<string>, t: State) {
    && t == s.(tick := t.tick, entries := t.entries, memory := t.memory) && s.tick <= t.tick
    && t.entries.Keys == s.entries.Keys
    && forall id <- s.entries :: t.entries[id] == if id in todo then s.entries[id] else AllUnloaded(s.entries)[id]
  }

  lemma ClosingOne(s: State, todo: set<string>, t: State, id: string)
    requires ClosingDown(s, todo, t) && id in todo && id in s.entries
    ensures ClosingDown(s, todo - {id}, Unload(t, id)) && Unload(t, id).entries.Keys == t.entries.Keys
  {
  }

  lemma ClosedDown(s: State, t: State)
    requires ClosingDown(s, {}, t) && Counted(t)
    ensures ShutDown(s, t)
  {
    assert t.entries == AllUnloaded(s.entries);
    assert LoadedIds(t.entries) == {};
  }
}
