/** What reaches the consumer of a request, over whole runs of an engine (omlx/engine_core.py): an account
    of what each operation is to bring it, kept without the tables, and the tables measured against it. */
module EngineFeed {
  import opened Common
  import opened Collector
  import opened EngineCore
  import Core = EngineCore

  /** Brought to a request since it was added: what its consumer has taken since, and what is pending; at
      which number of tokens something was last sent, and whether generate() has been woken. */
  datatype Feed = Feed(taken: seq<Output>, pending: seq<Output>, last: nat, woken: bool)

  function Bring(f: Feed, o: Output): Feed { f.(pending := f.pending + [o]) }

  function Tell(f: Feed, o: Output): Feed { Bring(f, o).(woken := true) }

  /** Everything is brought with an interval of 1; otherwise the first output, the last one, and every one
      that is an interval of tokens further than the one before. */
  function Hear(interval: nat, f: Feed, o: Output, id: string): Feed {
    if o.id != id then f
    else
      var due := f.last == 0 || f.last + interval <= o.completionTokens;
      var g := if interval == 1 then Bring(f, o)
               else if due || o.finished then Bring(f, o).(last := o.completionTokens) else f;
      g.(woken := f.woken || o.finished)
  }

  function HearAll(interval: nat, f: Feed, outputs: seq<Output>, id: string): Feed {
    if outputs == [] then f
    else Hear(interval, HearAll(interval, f, outputs[..|outputs| - 1], id), outputs[|outputs| - 1], id)
  }

  function FailAll(f: Feed, ids: seq<string>, message: string, id: string): Feed {
    if ids == [] then f
    else
      var g := FailAll(f, ids[..|ids| - 1], message, id);
      if ids[|ids| - 1] == id then Tell(g, Status(id, "error", "", message)) else g
  }

  /** The request's account after these operations, if it is known then. */
  function Fed(interval: nat, ops: seq<Op>, id: string): Option<Feed> {
    if ops == [] then None
    else
      var front, last := ops[..|ops| - 1], ops[|ops| - 1];
      Feeding(interval, Fed(interval, front, id), last, Shut in front, id)
  }

  function Feeding(interval: nat, f: Option<Feed>, op: Op, closed: bool, id: string): Option<Feed> {
    if op == Add(id) && !closed then Some(Feed([], [], 0, false))
    else if f.None? || op in {AddFails(id), StreamEnd(id), GenerateCancelled(id)} then None
    else
      match op
      case Step(outputs) => Some(HearAll(interval, f.value, outputs, id))
      case AbortOne(other, _) =>
        if other == id && !closed then Some(Tell(f.value, Status(id, "abort", "", ABORTED))) else f
      case AbortEvery => Some(Tell(f.value, OverLimit(id)))
      case FailEvery(ids, message) => Some(FailAll(f.value, ids, message, id))
      case StreamTake(other) =>
        if other == id then Some(f.value.(taken := f.value.taken + f.value.pending, pending := [])) else f
      case GenerateWakes(other) => if other == id && f.value.woken then None else f
      case _ => f
  }

  /** What the consumer of a request has been handed since it was added, by the replies to these operations. */
  function Handed(ops: seq<Op>, replies: seq<Reply>, id: string): seq<Output>
    requires |replies| == |ops|
  {
    if ops == [] then []
    else
      var n := |ops| - 1;
      if ops[n] == Add(id) && replies[n] == Accepted(true) then []
      else Handed(ops[..n], replies[..n], id)
           + if ops[n] == StreamTake(id) && replies[n].Took? && replies[n].output.Some? then [replies[n].output.value] else []
  }

  // ---------- the tables agree with the account ----------

  /** The collector of a known request holds what is pending, merged. */
  ghost predicate Agrees(t: Tables, f: Option<Feed>, id: string) {
    && Keyed(t) && (id in t.collectors <==> f.Some?)
    && (f.Some? ==> t.collectors[id] == Buffered(f.value.pending) && t.sent[id] == f.value.last && t.events[id] == f.value.woken)
  }

  lemma BufferedMore(puts: seq<Output>, o: Output)
    ensures Buffered(puts + [o]) == PutInto(Buffered(puts), o)
  {
    assert (puts + [o])[..|puts|] == puts;
  }

  lemma DeliveryAgrees(interval: nat, t: Tables, f: Feed, o: Output, id: string)
    requires Agrees(t, Some(f), id)
    ensures Agrees(Delivered(interval, t, o), Some(Hear(interval, f, o, id)), id)
  {
    BufferedMore(f.pending, o);
    hide PutInto, Buffered;
  }

  lemma {:induction false} StepAgrees(interval: nat, t: Tables, f: Feed, outputs: seq<Output>, id: string)
    requires Keyed(t) && Agrees(t, Some(f), id)
    ensures Agrees(Distributed(interval, t, outputs), Some(HearAll(interval, f, outputs, id)), id)
  {
    hide Agrees, Delivered, Hear;
    if outputs != [] {
      var front, last := outputs[..|outputs| - 1], outputs[|outputs| - 1];
      DistributedLast(interval, t, outputs);
      StepAgrees(interval, t, f, front, id);
      DeliveryAgrees(interval, Distributed(interval, t, front), HearAll(interval, f, front, id), last, id);
    }
  }

  lemma {:induction false} DistributedLast(interval: nat, t: Tables, outputs: seq<Output>)
    requires Keyed(t) && outputs != []
    ensures Distributed(interval, t, outputs)
         == Delivered(interval, Distributed(interval, t, outputs[..|outputs| - 1]), outputs[|outputs| - 1])
    decreases |outputs|
  {
    var next := Delivered(interval, t, outputs[0]);
    assert Keyed(next);
    hide Delivered;
    if |outputs| == 1 {
      assert outputs[1..] == [] && outputs[..0] == [];
    } else {
      DistributedLast(interval, next, outputs[1..]);
      assert outputs[1..][..|outputs| - 2] == outputs[..|outputs| - 1][1..];
    }
  }

  lemma TellingAgrees(t: Tables, f: Feed, o: Output, id: string)
    requires Agrees(t, Some(f), id)
    ensures Agrees(Told(t, o), Some(if o.id == id then Tell(f, o) else f), id)
  {
    BufferedMore(f.pending, o);
    hide PutInto, Buffered;
  }

  lemma {:induction false} FailingAgrees(t: Tables, f: Feed, ids: seq<string>, message: string, id: string)
    requires Agrees(t, Some(f), id)
    ensures Agrees(FailedAll(t, ids, message), Some(FailAll(f, ids, message, id)), id)
  {
    hide Agrees, Told, Tell;
    if ids != [] {
      var front, last := ids[..|ids| - 1], ids[|ids| - 1];
      FailedLast(t, ids, message);
      FailingAgrees(t, f, front, message, id);
      var m, g := FailedAll(t, front, message), FailAll(f, front, message, id);
      TellingAgrees(m, g, Status(last, "error", "", message), id);
      DoneAside(Told(m, Status(last, "error", "", message)), FailAll(f, ids, message, id), last, id);
    }
  }

  lemma DoneAside(t: Tables, f: Feed, last: string, id: string)
    requires Agrees(t, Some(f), id)
    ensures Agrees(t.(done := t.done + {last}), Some(f), id)
  {
  }

  lemma {:induction false} FailedLast(t: Tables, ids: seq<string>, message: string)
    requires ids != []
    ensures var m, last := FailedAll(t, ids[..|ids| - 1], message), ids[|ids| - 1];
      var told := Told(m, Status(last, "error", "", message));
      FailedAll(t, ids, message) == told.(done := told.done + {last})
    decreases |ids|
  {
    var next := Told(t, Status(ids[0], "error", "", message)).(done := t.done + {ids[0]});
    hide PutInto, Status;
    if |ids| == 1 {
      assert ids[1..] == [] && ids[..0] == [];
    } else {
      FailedLast(next, ids[1..], message);
      assert ids[1..][..|ids| - 2] == ids[..|ids| - 1][1..];
    }
  }

  lemma OperationAgrees(interval: nat, t: Tables, f: Option<Feed>, op: Op, id: string)
    requires Keyed(t) && Agrees(t, f, id)
    ensures Agrees(Applied(interval, t, op), Feeding(interval, f, op, t.closed, id), id)
  {
    assert Buffered([]) == None;
    hide PutInto, Buffered, Distributed, FailedAll, HearAll, FailAll, Status, OverLimit;
    if f.None? {
      StillUnknown(interval, t, op, id);
    } else if op.Step? || op.FailEvery? {
      if op.Step? { StepAgrees(interval, t, f.value, op.outputs, id); }
      if op.FailEvery? { FailingAgrees(t, f.value, op.ids, op.message, id); }
      hide Agrees;
    } else if op.AbortOne? || op.AbortEvery? {
      AbortAgrees(interval, t, f.value, op, id);
    } else {
      hide Told;
    }
  }

  lemma AbortAgrees(interval: nat, t: Tables, f: Feed, op: Op, id: string)
    requires Keyed(t) && Agrees(t, Some(f), id) && (op.AbortOne? || op.AbortEvery?)
    ensures Agrees(Applied(interval, t, op), Feeding(interval, Some(f), op, t.closed, id), id)
  {
    hide PutInto, Buffered;
    if op.AbortOne? {
      TellingAgrees(t, f, Status(op.id, "abort", "", ABORTED), id);
      hide Agrees, Told, Tell;
    } else {
      BufferedMore(f.pending, OverLimit(id));
      hide OverLimit, Status;
    }
  }

  lemma StillUnknown(interval: nat, t: Tables, op: Op, id: string)
    requires Keyed(t) && id !in t.collectors
    ensures id in Applied(interval, t, op).collectors <==> op == Add(id) && !t.closed
  {
    if op.FailEvery? { FailingKeeps(t, op.ids, op.message); }
    hide PutInto, Status, OverLimit;
  }

  lemma {:induction false} FailingKeeps(t: Tables, ids: seq<string>, message: string)
    ensures FailedAll(t, ids, message).collectors.Keys == t.collectors.Keys
    decreases |ids|
  {
    hide PutInto, Status;
    if ids != [] { FailingKeeps(Told(t, Status(ids[0], "error", "", message)).(done := t.done + {ids[0]}), ids[1..], message); }
  }

  lemma {:induction false} ClosedByShut(interval: nat, ops: seq<Op>)
    ensures Core.After(interval, ops).closed <==> Shut in ops
  {
    if ops != [] {
      var front, last := ops[..|ops| - 1], ops[|ops| - 1];
      ClosedByShut(interval, front);
      OnlyShutCloses(interval, Core.After(interval, front), last);
      hide Applied;
      LastApart(ops);
    }
  }

  lemma OnlyShutCloses(interval: nat, t: Tables, op: Op)
    requires Keyed(t)
    ensures Applied(interval, t, op).closed <==> t.closed || op.Shut?
  {
    if op.FailEvery? { FailingCloses(t, op.ids, op.message); }
    if op.Step? { StepCloses(interval, t, op.outputs); }
    hide PutInto, Status, OverLimit;
  }

  lemma {:induction false} FailingCloses(t: Tables, ids: seq<string>, message: string)
    ensures FailedAll(t, ids, message).closed == t.closed
    decreases |ids|
  {
    hide PutInto, Status;
    if ids != [] { FailingCloses(Told(t, Status(ids[0], "error", "", message)).(done := t.done + {ids[0]}), ids[1..], message); }
  }

  lemma {:induction false} StepCloses(interval: nat, t: Tables, outputs: seq<Output>)
    requires Keyed(t)
    ensures Distributed(interval, t, outputs).closed == t.closed
    decreases |outputs|
  {
    hide PutInto, ShouldSend;
    if outputs != [] { StepCloses(interval, Delivered(interval, t, outputs[0]), outputs[1..]); }
  }

  /** Over every run, the tables hold exactly what the account says. */
  lemma {:induction false} RunAgrees(interval: nat, ops: seq<Op>, id: string)
    ensures Agrees(Core.After(interval, ops), Fed(interval, ops, id), id)
  {
    hide Applied, Agrees, Feeding;
    if ops != [] {
      var front, last := ops[..|ops| - 1], ops[|ops| - 1];
      RunAgrees(interval, front, id);
      ClosedByShut(interval, front);
      OperationAgrees(interval, Core.After(interval, front), Fed(interval, front, id), last, id);
    } else {
      NothingYet(id);
    }
  }

  lemma NothingYet(id: string)
    ensures Agrees(Tables(map[], map[], map[], false, {}, {}), None, id)
  {
  }

  // ---------- nothing is lost on the way to the consumer ----------

  /** What was handed over carries what was taken. */
  ghost predicate Carries(handed: seq<Output>, taken: seq<Output>) {
    AllTokens(handed) == AllTokens(taken) && AllText(handed) == AllText(taken)
  }

  lemma CarriesMore(handed: seq<Output>, taken: seq<Output>, pending: seq<Output>)
    requires Carries(handed, taken)
    ensures Carries(handed + (if pending == [] then [] else [Buffered(pending).value]), taken + pending)
  {
    if pending == [] {
      assert handed + [] == handed && taken + [] == taken;
    } else {
      BufferedIsLossless(pending);
      TokensOfLast(handed, Buffered(pending).value);
      TextOfLast(handed, Buffered(pending).value);
      TokensSplit(taken, pending);
      TextSplits(taken, pending);
    }
  }

  lemma {:induction false} HearingTakesNone(interval: nat, f: Feed, outputs: seq<Output>, id: string)
    ensures HearAll(interval, f, outputs, id).taken == f.taken
  {
    if outputs != [] { HearingTakesNone(interval, f, outputs[..|outputs| - 1], id); }
  }

  lemma {:induction false} FailingTakesNone(f: Feed, ids: seq<string>, message: string, id: string)
    ensures FailAll(f, ids, message, id).taken == f.taken
  {
    hide Status;
    if ids != [] { FailingTakesNone(f, ids[..|ids| - 1], message, id); }
  }

  lemma TakenStays(interval: nat, f: Feed, op: Op, closed: bool, id: string)
    requires (op != Add(id) || closed) && Feeding(interval, Some(f), op, closed, id).Some?
    ensures Feeding(interval, Some(f), op, closed, id).value.taken == f.taken + if op == StreamTake(id) then f.pending else []
  {
    if op.Step? { HearingTakesNone(interval, f, op.outputs, id); }
    if op.FailEvery? { FailingTakesNone(f, op.ids, op.message, id); }
    hide HearAll, FailAll, Status, OverLimit;
  }

  lemma {:induction false} HandedCarries(interval: nat, ops: seq<Op>, id: string)
    requires Fed(interval, ops, id).Some?
    ensures Carries(Handed(ops, Answers(interval, ops), id), Fed(interval, ops, id).value.taken)
  {
    var front, last := ops[..|ops| - 1], ops[|ops| - 1];
    ClosedByShut(interval, front);
    RunAgrees(interval, front, id);
    AnswersNext(interval, ops);
    if last != Add(id) || Shut in front {
      HandedCarries(interval, front, id);
      var f := Fed(interval, front, id).value;
      CarriesMore(Handed(front, Answers(interval, front), id), f.taken, f.pending);
      TakenStays(interval, f, last, Shut in front, id);
      assert Fed(interval, ops, id) == Feeding(interval, Some(f), last, Shut in front, id);
      hide Carries, Feeding, Buffered;
      HandedNext(interval, ops, id, f);
      if last != StreamTake(id) {
        assert Handed(ops, Answers(interval, ops), id) == Handed(front, Answers(interval, front), id) && Fed(interval, ops, id).value.taken == f.taken;
      }
    }
  }

  lemma HandedNext(interval: nat, ops: seq<Op>, id: string, f: Feed)
    requires ops != [] && Agrees(Core.After(interval, ops[..|ops| - 1]), Some(f), id)
    requires ops[|ops| - 1] != Add(id) || Core.After(interval, ops[..|ops| - 1]).closed
    ensures Handed(ops, Answers(interval, ops), id) == Handed(ops[..|ops| - 1], Answers(interval, ops[..|ops| - 1]), id)
      + if ops[|ops| - 1] == StreamTake(id) && f.pending != [] then [Buffered(f.pending).value] else []
  {
    NeverEmpty(f.pending);
    AnswersNext(interval, ops);
    hide Buffered, Core.After;
  }

  lemma AnswersNext(interval: nat, ops: seq<Op>)
    requires ops != []
    ensures var front := ops[..|ops| - 1];
      && Answers(interval, ops)[..|front|] == Answers(interval, front)
      && Answers(interval, ops)[|front|] == Answer(Core.After(interval, front), ops[|front|])
  {
  }

  /** What has been brought to a request since it was added, if it is known. */
  function Brought(interval: nat, ops: seq<Op>, id: string): seq<Output> {
    var f := Fed(interval, ops, id);
    if f.Some? then f.value.taken + f.value.pending else []
  }

  function Held(b: Option<Output>): seq<Output> { if b.Some? then [b.value] else [] }

  /** Over every run, for every request that is known: what its consumer has been handed since the request
      was added, and then what its collector holds, carry the tokens and the text of everything that was
      brought to it since, in order. */
  lemma NothingIsLost(interval: nat, ops: seq<Op>, id: string)
    requires id in Core.After(interval, ops).collectors
    ensures Carries(Handed(ops, Answers(interval, ops), id) + Held(Core.After(interval, ops).collectors[id]), Brought(interval, ops, id))
  {
    RunAgrees(interval, ops, id);
    HandedCarries(interval, ops, id);
    var f := Fed(interval, ops, id).value;
    CarriesMore(Handed(ops, Answers(interval, ops), id), f.taken, f.pending);
    NeverEmpty(f.pending);
    hide Carries, Buffered, Core.After, Fed;
  }

  // ---------- what is brought ----------

  /** The outputs of a step that are for this request. */
  function For(outputs: seq<Output>, id: string): seq<Output> {
    if outputs == [] then []
    else For(outputs[..|outputs| - 1], id) + if outputs[|outputs| - 1].id == id then [outputs[|outputs| - 1]] else []
  }

  /** With an interval of 1, a step brings a known request all outputs that are for it, as they come. */
  lemma {:induction false} StepBringsAll(f: Feed, outputs: seq<Output>, id: string)
    ensures HearAll(1, f, outputs, id).pending == f.pending + For(outputs, id)
  {
    if outputs != [] { StepBringsAll(f, outputs[..|outputs| - 1], id); }
  }

  /** With any interval, it brings the finished ones. */
  lemma {:induction false} StepBringsFinished(interval: nat, f: Feed, outputs: seq<Output>, id: string)
    ensures forall o <- outputs :: o.id == id && o.finished ==> o in HearAll(interval, f, outputs, id).pending
    ensures forall o <- f.pending :: o in HearAll(interval, f, outputs, id).pending
  {
    if outputs != [] {
      StepBringsFinished(interval, f, outputs[..|outputs| - 1], id);
      LastApart(outputs);
    }
  }

  /** Every finished output of a step is in the collector of its request right after it, if the request is
      known: as one of the outputs merged there. */
  lemma FinishedReaches(interval: nat, ops: seq<Op>, outputs: seq<Output>, o: Output)
    requires o in outputs && o.finished && o.id in Core.After(interval, ops).collectors
    ensures var t := Core.After(interval, ops + [Op.Step(outputs)]);
      o.id in t.collectors && t.events[o.id] && exists puts: seq<Output> :: o in puts && t.collectors[o.id] == Buffered(puts)
  {
    var f := Fed(interval, ops, o.id);
    RunAgrees(interval, ops, o.id);
    RunAgrees(interval, ops + [Op.Step(outputs)], o.id);
    assert (ops + [Op.Step(outputs)])[..|ops|] == ops;
    StepBringsFinished(interval, f.value, outputs, o.id);
    FinishedWakes(interval, f.value, outputs, o);
    hide Buffered, Core.After, HearAll;
    assert o in Fed(interval, ops + [Op.Step(outputs)], o.id).value.pending;
  }

  lemma {:induction false} FinishedWakes(interval: nat, f: Feed, outputs: seq<Output>, o: Output)
    requires o in outputs && o.finished
    ensures HearAll(interval, f, outputs, o.id).woken
  {
    LastApart(outputs);
    if outputs[|outputs| - 1] != o { FinishedWakes(interval, f, outputs[..|outputs| - 1], o); }
  }

  /** A generate() that was woken comes back with the rest: together with what was handed over before, its
      output carries everything that was brought to the request. */
  lemma GenerateGetsTheRest(interval: nat, ops: seq<Op>, id: string, o: Output)
    requires Answer(Core.After(interval, ops), GenerateWakes(id)) == Came(Finished(o))
    ensures Carries(Handed(ops, Answers(interval, ops), id) + [o], Brought(interval, ops, id))
  {
    NothingIsLost(interval, ops, id);
    hide Carries, Core.After;
  }

  // ---------- the engine as it runs ----------

  lemma Tabled(core: Core.EngineCore, interval: nat, ops: seq<Op>)
    requires core.Now() == Core.After(interval, ops)
    ensures core.collectors == Core.After(interval, ops).collectors
  {
  }

  /** Any operations on a new engine: what its tables hold in the end, and what each of them answered. */
  method Run(interval: nat, ops: seq<Op>) returns (core: Core.EngineCore, replies: seq<Reply>)
    ensures fresh(core) && core.Now() == Core.After(interval, ops) && replies == Answers(interval, ops)
    // its consumers and collectors have everything that was brought to the requests it knows
    ensures forall id <- core.collectors ::
      Carries(Handed(ops, replies, id) + Held(core.collectors[id]), Brought(interval, ops, id))
    // and a generate() that was woken is not left without a result
    ensures NoneBuried(interval, ops) && SoleConsumers(ops) ==> forall r <- replies :: r.Came? ==> Conclusive(r.result)
  {
    core := new Core.EngineCore(interval);
    replies := [];
    for i := 0 to |ops|
      invariant fresh(core) && core.Valid() && core.interval == interval
      invariant core.Now() == Core.After(interval, ops[..i]) && replies == Answers(interval, ops[..i])
    {
      hide *;
      assert ops[..i + 1] == ops[..i] + [ops[i]];
      AppliedNext(interval, ops[..i], ops[i]);
      var reply := Core.Perform(core, ops[i]);
      replies := replies + [reply];
    }
    assert ops[..|ops|] == ops;
    hide *;
    assert core.collectors == Core.After(interval, ops).collectors by { Tabled(core, interval, ops); }
    forall id | id in core.collectors
      ensures Carries(Handed(ops, replies, id) + Held(core.collectors[id]), Brought(interval, ops, id))
    {
      NothingIsLost(interval, ops, id);
    }
    if NoneBuried(interval, ops) && SoleConsumers(ops) { EveryResultIsConclusive(interval, ops); }
  }
}
