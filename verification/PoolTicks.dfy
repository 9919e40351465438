/** What a tick of the enforcer does, from its first readings to its end, whatever happens in between
    (omlx/process_memory_enforcer.py, _check_and_enforce). */
module PoolTicks {
  import opened Common
  import opened Limits
  import opened PoolState
  import opened PoolAdmission
  import opened EnginePool
  import opened Enforcer
  import opened PoolRuns

  /** A tick that waits for the lock goes on with what it has seen, until it ends or is cancelled. */
  lemma WaitingStays(u: Setup, a: Snap, op: Op, how: How, b: Snap)
    requires Next(u, a, op, how, b) && a.control.waiting.Some? && op != Op.Stop && !(op.EndTick? && Enabled(op, a))
    ensures b.control.waiting == a.control.waiting
  {
    hide Got, TtlChecked, ShutDown, TickEnded, StartEnds, DraftEnds, LoadEnds, LoadFits, HardLimit, Propagated, Completes, Unload,
      PoolState.Discover, PoolState.Reload;
  }

  /** This tick begins at i and ends at j. */
  ghost predicate Spans(trace: seq<Snap>, ops: seq<Op>, i: nat, j: nat) {
    && |trace| == |ops| + 1 && i < j < |ops|
    && ops[i] == Op.BeginTick && Enabled(ops[i], trace[i]) && trace[i + 1].control.waiting.Some?
    && ops[j] == Op.EndTick && Enabled(ops[j], trace[j])
    && forall n :: i < n < j ==> ops[n] != Op.Stop && !(ops[n].EndTick? && Enabled(ops[n], trace[n]))
  }

  lemma {:induction false} WaitingUntil(u: Setup, trace: seq<Snap>, ops: seq<Op>, hows: seq<How>, i: nat, j: nat, n: nat)
    requires Run(u, trace, ops, hows) && Spans(trace, ops, i, j) && i < n <= j
    ensures trace[n].control.waiting == trace[i + 1].control.waiting
  {
    hide Run, Next;
    if i + 1 < n {
      WaitingUntil(u, trace, ops, hows, i, j, n - 1);
      RunNext(u, trace, ops, hows, n - 1);
      WaitingStays(u, trace[n - 1], ops[n - 1], hows[n - 1], trace[n]);
    }
  }

  /** What the readings of a tick that begins at a make of its end at c: it relieves the pressure down to the
      soft mark, as at hard pressure exactly if the usage had reached both marks. */
  ghost predicate AsRead(u: Setup, a: Snap, c: Snap, r: Relief) {
    var ceiling, usage := LimitAt(u, a.control, a.pool.tick + 2), u.world.memory(a.pool.tick + 3);
    var hard := !Below(usage, ceiling, u.softRatio) && !Below(usage, ceiling, u.hardRatio);
    && ceiling > 0 && !Below(usage, ceiling, u.softRatio) && c.control.waiting.Some?
    && var target := c.control.waiting.value.target;
    && target as real <= ceiling as real * u.softRatio < (target + 1) as real
    && (exists p: State :: Relieved(u.world, c.pool, target, hard, r, p) && Aborts(u.world, c.pool, target, hard, r, p))
    && (Below(usage, ceiling, u.hardRatio) ==> r.aborted == Ids(r.picks) && r.marked == {})
  }

  /** Over any run, a tick ends as its own first readings say: in particular, below the hard mark it aborts
      nothing but the requests of the models it evicts. */
  lemma TickFollowsFirstReadings(u: Setup, trace: seq<Snap>, ops: seq<Op>, hows: seq<How>, i: nat, j: nat)
    requires Run(u, trace, ops, hows) && Spans(trace, ops, i, j)
    ensures hows[j].Eased? && AsRead(u, trace[i], trace[j], hows[j].relief)
  {
    hide Run, Next, AsRead, Enabled;
    RunNext(u, trace, ops, hows, i);
    RunNext(u, trace, ops, hows, j);
    WaitingUntil(u, trace, ops, hows, i, j, j);
    ReadThenEnded(u, trace[i], hows[i], trace[i + 1], trace[j], hows[j], trace[j + 1]);
  }

  lemma ReadThenEnded(u: Setup, a: Snap, begun: How, b: Snap, c: Snap, ended: How, d: Snap)
    requires Next(u, a, Op.BeginTick, begun, b) && Enabled(Op.BeginTick, a) && b.control.waiting.Some?
    requires Next(u, c, Op.EndTick, ended, d) && Enabled(Op.EndTick, c) && c.control.waiting == b.control.waiting
    ensures ended.Eased? && AsRead(u, a, c, ended.relief)
  {
    hide Next, Enabled, Below, LimitAt, Relieved, Ids, Aborts;
    BeganSo(u, a, begun, b);
    EndedSo(u, c, ended, d);
  }

  lemma BeganSo(u: Setup, a: Snap, how: How, b: Snap)
    requires Next(u, a, Op.BeginTick, how, b) && Enabled(Op.BeginTick, a) && b.control.waiting.Some?
    ensures var ceiling, usage := LimitAt(u, a.control, a.pool.tick + 2), u.world.memory(a.pool.tick + 3);
      && ceiling > 0 && !Below(usage, ceiling, u.softRatio)
      && (b.control.waiting.value.seen == Hard <==> !Below(usage, ceiling, u.hardRatio))
      && b.control.waiting.value.target as real <= ceiling as real * u.softRatio < (b.control.waiting.value.target + 1) as real
  {
    LevelIsOfFirstReadings(u, a);
    hide Enforcer.BeginTick, LimitAt, Below;
  }

  lemma EndedSo(u: Setup, a: Snap, how: How, b: Snap)
    requires Next(u, a, Op.EndTick, how, b) && Enabled(Op.EndTick, a)
    ensures how.Eased? && a.control.waiting.Some?
    ensures a.control.waiting.value.seen != Hard ==> how.relief.aborted == Ids(how.relief.picks) && how.relief.marked == {}
    ensures var waiting, hard := a.control.waiting.value, a.control.waiting.value.seen == Hard;
      exists p: State ::
        Relieved(u.world, a.pool, waiting.target, hard, how.relief, p) && Aborts(u.world, a.pool, waiting.target, hard, how.relief, p)
  {
    OnlyHardAborts(u, a, how.relief, b);
    var waiting := a.control.waiting.value;
    var p: State :| Relieved(u.world, a.pool, waiting.target, waiting.seen == Hard, how.relief, p);
    hide Relieved, Ids, Aborts;
    ReliefAborts(u.world, a.pool, waiting.target, waiting.seen == Hard, how.relief, p);
  }
}
