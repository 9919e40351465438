/** The request table of one engine (omlx/engine_core.py, EngineCore). A request's collector is
    represented by its buffer; every operation is one segment between suspension points: a function
    on the tables, and the method that performs it. */
module EngineCore {
  import opened Common
  import opened Collector

  const ABORTED := "Request aborted"
  const OVER_LIMIT := "Request aborted: process memory limit exceeded. Increase --max-process-memory or reduce context size."

  /** An output that carries nothing but a status. */
  function Status(id: string, reason: string, text: string, error: string): Output {
    Output(id, [], text, [], "", true, Some(reason), 0, 0, None, 0, Some(error))
  }

  function OverLimit(id: string): (o: Output)
    ensures o.id == id && o.finished && HasError(o)
  {
    Status(id, "error", "\n\n[Error: " + OVER_LIMIT + "]", OVER_LIMIT)
  }

  lemma MergedStatus(b: Option<Output>, o: Output)
    ensures var m := PutInto(b, o);
      && m.Some?
      && (HasError(m.value) <==> HasError(o) || (b.Some? && HasError(b.value)))
      && m.value.finished == o.finished
  {
  }

  /** RequestStreamState.should_send. */
  predicate ShouldSend(interval: nat, sent: nat, total: nat, finished: bool) {
    finished || sent == 0 || total - sent >= interval
  }

  datatype Result =
    | NoCollector
    | NoOutput
    | Failed(error: string)
    | Finished(output: Output)

  /** What an awaiting generate() may come back with: an error or a finished output. */
  predicate Conclusive(r: Result) { r.Failed? || (r.Finished? && r.output.finished) }

  // ---------- the tables and what is done to them ----------

  /** served are the requests whose consumer has already taken a terminal output, done those the
      scheduler has reported as finished or failed. */
  datatype Tables = Tables(
    collectors: map<string, Option<Output>>,
    sent: map<string, nat>,
    events: map<string, bool>,
    closed: bool,
    served: set<string>,
    done: set<string>)

  /** One key set. */
  predicate Keyed(t: Tables) { t.collectors.Keys == t.sent.Keys == t.events.Keys }

  /** A completion event that is set, and whose consumer has not been served, guarantees a terminal
      output in the collector; and if that output carries no error, the scheduler is through with
      the request. */
  ghost predicate Promises(t: Tables) {
    && Keyed(t) && t.served <= t.collectors.Keys
    && forall id <- t.events :: t.events[id] && id !in t.served ==>
         && t.collectors[id].Some? && Terminal(t.collectors[id].value)
         && (HasError(t.collectors[id].value) || id in t.done)
  }

  /** The first segment of add_request. */
  function Added(t: Tables, id: string): Tables {
    if t.closed then t
    else Tables(t.collectors[id := None], t.sent[id := 0], t.events[id := false], false, t.served - {id}, t.done - {id})
  }

  function Cleaned(t: Tables, id: string): Tables {
    t.(collectors := t.collectors - {id}, sent := t.sent - {id}, events := t.events - {id}, served := t.served - {id})
  }

  /** Puts o into its collector, if the request is still known. */
  function Stored(t: Tables, o: Output): Tables {
    if o.id in t.collectors then t.(collectors := t.collectors[o.id := PutInto(t.collectors[o.id], o)]) else t
  }

  function Signalled(t: Tables, id: string): Tables {
    if id in t.events then t.(events := t.events[id := true]) else t
  }

  /** Would this output be put into its request's collector? */
  predicate Sends(interval: nat, t: Tables, o: Output)
    requires Keyed(t)
  {
    o.id in t.collectors && (interval == 1 || ShouldSend(interval, t.sent[o.id], o.completionTokens, o.finished))
  }

  /** An ordinary output that would bury the finished output still waiting for its consumer. */
  predicate Buries(interval: nat, t: Tables, o: Output)
    requires Keyed(t)
  {
    && Sends(interval, t, o) && !Terminal(o) && o.id !in t.served
    && t.events[o.id] && t.collectors[o.id].Some? && !HasError(t.collectors[o.id].value)
  }

  /** Distribution of one scheduler output. */
  function Delivered(interval: nat, t: Tables, o: Output): Tables
    requires Keyed(t)
  {
    var p := if Sends(interval, t, o) then Stored(t, o) else t;
    var q := if Sends(interval, t, o) && interval != 1 then p.(sent := p.sent[o.id := o.completionTokens]) else p;
    if o.finished then Signalled(q, o.id).(done := q.done + {o.id}) else q
  }

  function Distributed(interval: nat, t: Tables, outputs: seq<Output>): (r: Tables)
    requires Keyed(t)
    ensures Keyed(r) && r.collectors.Keys == t.collectors.Keys
    decreases |outputs|
  {
    if outputs == [] then t else Distributed(interval, Delivered(interval, t, outputs[0]), outputs[1..])
  }

  /** Puts a status into a request's collector and sets its event. */
  function Told(t: Tables, o: Output): Tables { Signalled(Stored(t, o), o.id) }

  function AbortedOne(t: Tables, id: string): Tables {
    if t.closed then t else Told(t, Status(id, "abort", "", ABORTED))
  }

  /** abort_all_requests: every known request gets an error and its event. */
  function AbortedAll(t: Tables): Tables {
    t.(collectors := map id <- t.collectors :: PutInto(t.collectors[id], OverLimit(id)),
       events := map id <- t.events :: true)
  }

  /** Every request but these has been aborted. */
  ghost predicate AbortedBut(s: Tables, todo: set<string>, t: Tables) {
    && t == s.(collectors := t.collectors, events := t.events) && Keyed(s) && Keyed(t)
    && forall id <- s.collectors ::
         && t.collectors[id] == (if id in todo then s.collectors[id] else AbortedAll(s).collectors[id])
         && t.events[id] == (if id in todo then s.events[id] else true)
  }

  lemma AbortedNext(s: Tables, todo: set<string>, t: Tables, id: string)
    requires AbortedBut(s, todo, t) && id in todo && todo <= t.collectors.Keys
    ensures AbortedBut(s, todo - {id}, Told(t, OverLimit(id))) && Told(t, OverLimit(id)).collectors.Keys == t.collectors.Keys
  {
    hide PutInto, OverLimit, Told, AbortedAll;
    ToldOne(t, id, OverLimit(id));
    AbortedAt(s, id);
    var u, rest := Told(t, OverLimit(id)), todo - {id};
    forall o | o in s.collectors
      ensures u.collectors[o] == (if o in rest then s.collectors[o] else AbortedAll(s).collectors[o])
      ensures u.events[o] == (if o in rest then s.events[o] else true)
    {
    }
  }

  lemma ToldOne(t: Tables, id: string, o: Output)
    requires Keyed(t) && id in t.collectors && o.id == id
    ensures Told(t, o) == t.(collectors := t.collectors[id := PutInto(t.collectors[id], o)], events := t.events[id := true])
  {
    hide PutInto;
  }

  lemma AbortedAt(s: Tables, id: string)
    requires id in s.collectors
    ensures id in AbortedAll(s).collectors && AbortedAll(s).collectors[id] == PutInto(s.collectors[id], OverLimit(id))
    ensures AbortedAll(s).collectors.Keys == s.collectors.Keys
  {
    hide PutInto, OverLimit;
  }

  lemma AbortedLast(s: Tables, t: Tables)
    requires AbortedBut(s, {}, t)
    ensures t == AbortedAll(s)
  {
    hide PutInto, OverLimit;
    assert t.collectors == AbortedAll(s).collectors && t.events == AbortedAll(s).events;
  }

  /** The engine loop's error path: the scheduler drops all its requests, and each of them that is
      still known gets a finished output and its event. */
  function FailedAll(t: Tables, ids: seq<string>, message: string): Tables
    decreases |ids|
  {
    if ids == [] then t
    else FailedAll(Told(t, Status(ids[0], "error", "", message)).(done := t.done + {ids[0]}), ids[1..], message)
  }

  /** get_nowait by the consumer of a stream. */
  function Taken(t: Tables, id: string): Tables
    requires id in t.collectors
  {
    var o := t.collectors[id];
    t.(collectors := t.collectors[id := None], served := if o.Some? && Terminal(o.value) then t.served + {id} else t.served)
  }

  /** What generate() reports after its event fired. */
  function Conclusion(t: Tables, id: string): Result {
    if id !in t.collectors then NoCollector
    else if t.collectors[id].None? then NoOutput
    else if HasError(t.collectors[id].value) then Failed(t.collectors[id].value.error.value)
    else Finished(t.collectors[id].value)
  }

  // ---------- the guarantee ----------

  /** The guarantee survives exactly the outputs that do not bury a finished one; a late ordinary
      output after an abort is not one of those. */
  lemma DeliveryIsSafe(interval: nat, t: Tables, o: Output)
    requires Promises(t)
    ensures Promises(Delivered(interval, t, o)) <==> !Buries(interval, t, o)
  {
    if o.id in t.collectors { MergedStatus(t.collectors[o.id], o); }
    hide PutInto, ShouldSend;
    var r := Delivered(interval, t, o);
    if Buries(interval, t, o) { assert r.events[o.id] && !Terminal(r.collectors[o.id].value); }
  }

  /** The scheduler emits nothing for a request after reporting it finished. */
  ghost predicate Disciplined(outputs: seq<Output>, done: set<string>) {
    outputs == [] ||
    (outputs[0].id !in done && Disciplined(outputs[1..], if outputs[0].finished then done + {outputs[0].id} else done))
  }

  /** None of these outputs buries a finished one. */
  predicate NothingBuried(interval: nat, t: Tables, outputs: seq<Output>)
    requires Keyed(t)
    decreases |outputs|
  {
    outputs == [] || (!Buries(interval, t, outputs[0]) && NothingBuried(interval, Delivered(interval, t, outputs[0]), outputs[1..]))
  }

  /** The guarantee holds after each of them. */
  ghost predicate PromisesThroughout(interval: nat, t: Tables, outputs: seq<Output>)
    requires Keyed(t)
    decreases |outputs|
  {
    Promises(t) && (outputs == [] || PromisesThroughout(interval, Delivered(interval, t, outputs[0]), outputs[1..]))
  }

  /** The guarantee survives a step, output by output, exactly if nothing is buried in it. */
  lemma {:induction false} DistributionIsSafe(interval: nat, t: Tables, outputs: seq<Output>)
    requires Promises(t)
    ensures PromisesThroughout(interval, t, outputs) <==> NothingBuried(interval, t, outputs)
    ensures NothingBuried(interval, t, outputs) ==>
      Promises(Distributed(interval, t, outputs)) && Distributed(interval, t, outputs).served == t.served
    decreases |outputs|
  {
    if outputs != [] {
      DeliveryIsSafe(interval, t, outputs[0]);
      DeliveryServesNone(interval, t, outputs[0]);
      hide Promises, Buries, Delivered;
      if !Buries(interval, t, outputs[0]) {
        DistributionIsSafe(interval, Delivered(interval, t, outputs[0]), outputs[1..]);
      } else {
        NotThroughout(interval, Delivered(interval, t, outputs[0]), outputs[1..]);
      }
    }
  }

  lemma DeliveryServesNone(interval: nat, t: Tables, o: Output)
    requires Keyed(t)
    ensures Delivered(interval, t, o).served == t.served && Keyed(Delivered(interval, t, o))
    ensures Delivered(interval, t, o).done == if o.finished then t.done + {o.id} else t.done
  {
    hide PutInto;
  }

  lemma NotThroughout(interval: nat, t: Tables, outputs: seq<Output>)
    requires Keyed(t) && !Promises(t)
    ensures !PromisesThroughout(interval, t, outputs)
  {
  }

  /** A scheduler that emits nothing for a request after reporting it finished buries nothing. */
  lemma {:induction false} DisciplineBuriesNothing(interval: nat, t: Tables, outputs: seq<Output>)
    requires Promises(t) && Disciplined(outputs, t.done)
    ensures NothingBuried(interval, t, outputs)
    decreases |outputs|
  {
    if outputs != [] {
      assert !Buries(interval, t, outputs[0]);
      DeliveryIsSafe(interval, t, outputs[0]);
      DeliveryServesNone(interval, t, outputs[0]);
      hide Promises, Buries, Delivered;
      DisciplineBuriesNothing(interval, Delivered(interval, t, outputs[0]), outputs[1..]);
    }
  }

  lemma TellingIsSafe(t: Tables, o: Output)
    requires Promises(t) && HasError(o) && o.finished
    ensures Promises(Told(t, o)) && Told(t, o).collectors.Keys == t.collectors.Keys
    ensures o.id in t.collectors ==> Told(t, o).events[o.id] && Told(t, o).collectors[o.id].value.finished
  {
    if o.id in t.collectors { MergedStatus(t.collectors[o.id], o); }
    hide PutInto;
  }

  lemma AbortingIsSafe(t: Tables)
    requires Promises(t)
    ensures Promises(AbortedAll(t))
  {
    forall id | id in t.collectors
      ensures PutInto(t.collectors[id], OverLimit(id)).Some? && HasError(PutInto(t.collectors[id], OverLimit(id)).value)
    {
      MergedStatus(t.collectors[id], OverLimit(id));
    }
    hide PutInto, OverLimit;
  }

  lemma FinishedStays(t: Tables, id: string, message: string)
    requires Promises(t)
    ensures var u := Told(t, Status(id, "error", "", message)).(done := t.done + {id});
      && Promises(u) && u.collectors.Keys == t.collectors.Keys
      && (id in t.collectors ==> u.events[id] && u.collectors[id].Some? && u.collectors[id].value.finished)
      && forall other <- t.collectors :: other != id ==>
           u.collectors[other] == t.collectors[other] && u.events[other] == t.events[other]
  {
    if message != "" {
      TellingIsSafe(t, Status(id, "error", "", message));
    } else if id in t.collectors {
      MergedStatus(t.collectors[id], Status(id, "error", "", message));
    }
    hide PutInto;
  }

  /** Exactly the failed requests get a terminal output and their event. */
  lemma {:induction false} FailingIsSafe(t: Tables, ids: seq<string>, message: string)
    requires Promises(t)
    ensures var u := FailedAll(t, ids, message);
      && Promises(u) && u.collectors.Keys == t.collectors.Keys && u.served == t.served && u.done == t.done + (set id <- ids)
      && forall id <- t.collectors ::
           if id in ids then u.events[id] && u.collectors[id].Some? && u.collectors[id].value.finished
           else u.collectors[id] == t.collectors[id] && u.events[id] == t.events[id]
    decreases |ids|
  {
    if ids != [] {
      FinishedStays(t, ids[0], message);
      hide Told, PutInto;
      var m := Told(t, Status(ids[0], "error", "", message)).(done := t.done + {ids[0]});
      FailingIsSafe(m, ids[1..], message);
      assert ids == [ids[0]] + ids[1..];
    }
  }

  // ---------- every run ----------

  datatype Op =
    | Add(id: string)
    | AddFails(id: string)
    | Step(outputs: seq<Output>)
    | AbortOne(id: string, answer: bool)
    | AbortEvery
    | FailEvery(ids: seq<string>, message: string)
    | StreamTake(id: string)
    | StreamEnd(id: string)
    | GenerateWakes(id: string)
    | GenerateCancelled(id: string)
    | Shut

  datatype Reply =
    | Nothing
    | Accepted(ok: bool)
    | Count(aborted: nat)
    | Took(output: Option<Output>)
    | Came(result: Result)

  /** generate() wakes when its event is set. */
  predicate Awake(t: Tables, id: string) { id in t.events && t.events[id] }

  function Applied(interval: nat, t: Tables, op: Op): (r: Tables)
    requires Keyed(t)
    ensures Keyed(r)
  {
    match op
    case Add(id) => Added(t, id)
    case AddFails(id) => Cleaned(t, id)
    case Step(outputs) => Distributed(interval, t, outputs)
    case AbortOne(id, _) => AbortedOne(t, id)
    case AbortEvery => AbortedAll(t)
    case FailEvery(ids, message) => FailedKeyed(t, ids, message); FailedAll(t, ids, message)
    case StreamTake(id) => if id in t.collectors then Taken(t, id) else t
    case StreamEnd(id) => Cleaned(t, id)
    case GenerateWakes(id) => if Awake(t, id) then Cleaned(t, id) else t
    case GenerateCancelled(id) => Cleaned(AbortedOne(t, id), id)
    case Shut => t.(closed := true)
  }

  lemma {:induction false} FailedKeyed(t: Tables, ids: seq<string>, message: string)
    requires Keyed(t)
    ensures Keyed(FailedAll(t, ids, message))
    decreases |ids|
  {
    if ids != [] {
      hide PutInto;
      FailedKeyed(Told(t, Status(ids[0], "error", "", message)).(done := t.done + {ids[0]}), ids[1..], message);
    }
  }

  function Answer(t: Tables, op: Op): Reply {
    match op
    case Add(_) => Accepted(!t.closed)
    case AbortOne(_, answer) => Accepted(!t.closed && answer)
    case AbortEvery => Count(|t.collectors|)
    case StreamTake(id) => if id in t.collectors then Took(t.collectors[id]) else Nothing
    case GenerateWakes(id) => if Awake(t, id) then Came(Conclusion(t, id)) else Nothing
    case _ => Nothing
  }

  /** The tables after these operations. */
  function After(interval: nat, ops: seq<Op>): (r: Tables)
    ensures Keyed(r)
  {
    if ops == [] then Tables(map[], map[], map[], false, {}, {})
    else Applied(interval, After(interval, ops[..|ops| - 1]), ops[|ops| - 1])
  }

  /** What each of them answered. */
  function Answers(interval: nat, ops: seq<Op>): (r: seq<Reply>)
    ensures |r| == |ops|
  {
    if ops == [] then []
    else
      var front, last := ops[..|ops| - 1], ops[|ops| - 1];
      Answers(interval, front) + [Answer(After(interval, front), last)]
  }

  /** In every step the scheduler emits nothing for a request that it has reported as finished. */
  ghost predicate SchedulerOk(interval: nat, ops: seq<Op>) {
    ops == [] ||
    var front, last := ops[..|ops| - 1], ops[|ops| - 1];
    SchedulerOk(interval, front) && (last.Step? ==> Disciplined(last.outputs, After(interval, front).done))
  }

  /** No output of the run buries a finished one. */
  predicate NoneBuried(interval: nat, ops: seq<Op>) {
    ops == [] ||
    var front, last := ops[..|ops| - 1], ops[|ops| - 1];
    NoneBuried(interval, front) && (last.Step? ==> NothingBuried(interval, After(interval, front), last.outputs))
  }

  /** The guarantee holds in every state of the run, the ones between two outputs of a step included. */
  ghost predicate KeptThroughout(interval: nat, ops: seq<Op>) {
    Promises(After(interval, ops)) &&
    (ops == [] ||
     var front, last := ops[..|ops| - 1], ops[|ops| - 1];
     KeptThroughout(interval, front) && (last.Step? ==> PromisesThroughout(interval, After(interval, front), last.outputs)))
  }

  /** Nobody reads a request's stream behind the back of generate(). */
  ghost predicate SoleConsumers(ops: seq<Op>) {
    forall i, j :: 0 <= i < |ops| && 0 <= j < |ops| && ops[i].StreamTake? && ops[j].GenerateWakes? ==> ops[i].id != ops[j].id
  }

  lemma OperationIsSafe(interval: nat, t: Tables, op: Op)
    requires Promises(t) && (op.Step? ==> NothingBuried(interval, t, op.outputs))
    ensures Promises(Applied(interval, t, op))
    ensures Applied(interval, t, op).served <= t.served + if op.StreamTake? then {op.id} else {}
  {
    if op.Step? { DistributionIsSafe(interval, t, op.outputs); }
    if op.AbortOne? { TellingIsSafe(t, Status(op.id, "abort", "", ABORTED)); }
    if op.GenerateCancelled? { TellingIsSafe(t, Status(op.id, "abort", "", ABORTED)); }
    if op.AbortEvery? { AbortingIsSafe(t); }
    if op.FailEvery? { FailingIsSafe(t, op.ids, op.message); }
    hide PutInto, HasError;
  }

  /** In any interleaving of requests, scheduler steps, aborts, failures and consumers, a set event
      promises a terminal output to a consumer not yet served, throughout, if and only if no output
      buries a finished one. */
  lemma {:induction false} EveryEventIsKept(interval: nat, ops: seq<Op>)
    ensures KeptThroughout(interval, ops) <==> NoneBuried(interval, ops)
    ensures NoneBuried(interval, ops) ==> forall id <- After(interval, ops).served :: StreamTake(id) in ops
  {
    if ops != [] {
      var front, last := ops[..|ops| - 1], ops[|ops| - 1];
      EveryEventIsKept(interval, front);
      hide Promises, Applied, NothingBuried, PromisesThroughout;
      if NoneBuried(interval, front) {
        KeptNow(interval, front);
        if last.Step? { DistributionIsSafe(interval, After(interval, front), last.outputs); }
        if last.Step? ==> NothingBuried(interval, After(interval, front), last.outputs) {
          OperationIsSafe(interval, After(interval, front), last);
        }
      }
      assert forall op <- front :: op in ops;
    }
  }

  lemma KeptNow(interval: nat, ops: seq<Op>)
    requires KeptThroughout(interval, ops)
    ensures Promises(After(interval, ops))
  {
  }

  /** A disciplined scheduler buries nothing. */
  lemma {:induction false} SchedulerBuriesNothing(interval: nat, ops: seq<Op>)
    requires SchedulerOk(interval, ops)
    ensures NoneBuried(interval, ops)
  {
    if ops != [] {
      var front, last := ops[..|ops| - 1], ops[|ops| - 1];
      SchedulerBuriesNothing(interval, front);
      EveryEventIsKept(interval, front);
      KeptNow(interval, front);
      hide After, Promises, Disciplined, NothingBuried, KeptThroughout;
      if last.Step? { DisciplineBuriesNothing(interval, After(interval, front), last.outputs); }
    }
  }

  /** Then every generate() woken by its event comes back with a finished output or an error. */
  lemma {:induction false} EveryResultIsConclusive(interval: nat, ops: seq<Op>)
    requires NoneBuried(interval, ops) && SoleConsumers(ops)
    ensures forall r <- Answers(interval, ops) :: r.Came? ==> Conclusive(r.result)
  {
    if ops != [] {
      var front, last := ops[..|ops| - 1], ops[|ops| - 1];
      EveryResultIsConclusive(interval, front);
      EveryEventIsKept(interval, front);
      KeptNow(interval, front);
      hide After, KeptThroughout;
      assert last.GenerateWakes? ==> StreamTake(last.id) !in front;
    }
  }

  lemma AppliedNext(interval: nat, ops: seq<Op>, op: Op)
    ensures After(interval, ops + [op]) == Applied(interval, After(interval, ops), op)
    ensures Answers(interval, ops + [op]) == Answers(interval, ops) + [Answer(After(interval, ops), op)]
  {
    assert (ops + [op])[..|ops|] == ops;
    hide Applied, Answer;
  }

  // ---------- the engine as it runs ----------

  class EngineCore {
    const interval: nat
    var collectors: map<string, Option<Output>>
    var sent: map<string, nat>
    var events: map<string, bool>
    var closed: bool
    ghost var served: set<string>
    ghost var done: set<string>

    constructor (interval: nat)
      ensures Valid() && this.interval == interval && Now() == Tables(map[], map[], map[], false, {}, {})
    {
      this.interval := interval;
      collectors, sent, events, closed := map[], map[], map[], false;
      served, done := {}, {};
    }

    ghost function Now(): Tables
      reads this
    {
      Tables(collectors, sent, events, closed, served, done)
    }

    ghost predicate Valid()
      reads this
    {
      Keyed(Now())
    }

    method AddRequest(id: string) returns (ok: bool)
      requires Valid()
      modifies this
      ensures Valid() && Now() == Added(old(Now()), id) && ok == !old(closed)
    {
      if closed { return false; }
      collectors, sent, events := collectors[id := None], sent[id := 0], events[id := false];
      served, done := served - {id}, done - {id};
      return true;
    }

    method Cleanup(id: string)
      requires Valid()
      modifies this
      ensures Valid() && Now() == Cleaned(old(Now()), id)
    {
      collectors := collectors - {id};
      sent := sent - {id};
      events := events - {id};
      served := served - {id};
    }

    method PutOutput(o: Output)
      requires Valid()
      modifies this`collectors
      ensures Valid() && Now() == Stored(old(Now()), o)
    {
      hide PutInto;
      if o.id in collectors {
        collectors := collectors[o.id := PutInto(collectors[o.id], o)];
      }
    }

    method SetEvent(id: string)
      requires Valid()
      modifies this`events
      ensures Valid() && Now() == Signalled(old(Now()), id)
    {
      if id in events { events := events[id := true]; }
    }

    method Deliver(o: Output)
      requires Valid()
      modifies this
      ensures Valid() && Now() == Delivered(interval, old(Now()), o)
    {
      hide PutInto, ShouldSend;
      if o.id in collectors {
        if interval == 1 {
          PutOutput(o);
        } else if ShouldSend(interval, sent[o.id], o.completionTokens, o.finished) {
          PutOutput(o);
          sent := sent[o.id := o.completionTokens];
        }
      }
      if o.finished {
        SetEvent(o.id);
        done := done + {o.id};
      }
    }

    /** One pass of the engine loop over the outputs of a scheduler step. */
    method Distribute(outputs: seq<Output>)
      requires Valid()
      modifies this
      ensures Valid() && Now() == Distributed(interval, old(Now()), outputs)
    {
      for i := 0 to |outputs|
        invariant Valid() && Distributed(interval, Now(), outputs[i..]) == Distributed(interval, old(Now()), outputs)
      {
        hide Delivered;
        assert outputs[i..][1..] == outputs[i + 1..];
        Deliver(outputs[i]);
      }
    }

    method Tell(o: Output)
      requires Valid()
      modifies this`collectors, this`events
      ensures Valid() && Now() == Told(old(Now()), o)
    {
      hide PutInto;
      PutOutput(o);
      SetEvent(o.id);
    }

    /** abort_request; false when the engine is closed, otherwise the scheduler's own answer. */
    method Abort(id: string, answer: bool) returns (r: bool)
      requires Valid()
      modifies this`collectors, this`events
      ensures Valid() && Now() == AbortedOne(old(Now()), id) && r == (!old(closed) && answer)
    {
      if closed { return false; }
      hide Told;
      Tell(Status(id, "abort", "", ABORTED));
      return answer;
    }

    method AbortAll() returns (n: nat)
      requires Valid()
      modifies this`collectors, this`events
      ensures Valid() && Now() == AbortedAll(old(Now())) && n == |old(collectors)|
    {
      n := |collectors|;
      ghost var start := Now();
      var todo := collectors.Keys;
      while todo != {}
        invariant Valid() && todo <= collectors.Keys && AbortedBut(start, todo, Now())
      {
        hide *;
        var id :| id in todo;
        AbortedNext(start, todo, Now(), id);
        Tell(OverLimit(id));
        todo := todo - {id};
      }
      AbortedLast(start, Now());
    }

    method FailAll(ids: seq<string>, message: string)
      requires Valid()
      modifies this`collectors, this`events, this`done
      ensures Valid() && Now() == FailedAll(old(Now()), ids, message)
    {
      for i := 0 to |ids|
        invariant Valid() && FailedAll(Now(), ids[i..], message) == FailedAll(old(Now()), ids, message)
      {
        hide Told, Status;
        assert ids[i..][1..] == ids[i + 1..];
        Tell(Status(ids[i], "error", "", message));
        done := done + {ids[i]};
      }
    }

    method Take(id: string) returns (r: Option<Output>)
      requires Valid() && id in collectors
      modifies this`collectors, this`served
      ensures Valid() && Now() == Taken(old(Now()), id) && r == old(collectors[id])
    {
      hide Terminal;
      r := collectors[id];
      collectors := collectors[id := None];
      if r.Some? && Terminal(r.value) { served := served + {id}; }
    }

    /** generate() after its event fired: drain, clean up, report. */
    method Conclude(id: string) returns (r: Result)
      requires Valid()
      modifies this
      ensures Valid() && Now() == Cleaned(old(Now()), id) && r == Conclusion(old(Now()), id)
    {
      if id !in collectors {
        served := served - {id};
        assert collectors - {id} == collectors && sent - {id} == sent && events - {id} == events;
        return NoCollector;
      }
      var last: Option<Output> := None;
      var output := collectors[id];
      var table := collectors[id := None];
      while output.Some?
        invariant table == collectors[id := None]
        invariant output.Some? ==> last.None? && output == old(collectors[id])
        invariant output.None? ==> last == old(collectors[id])
        decreases if output.Some? then 1 else 0
      {
        last := output;
        output := table[id];
      }
      assert collectors[id := None] - {id} == collectors - {id};
      Cleanup(id);
      if last.None? { return NoOutput; }
      if HasError(last.value) { return Failed(last.value.error.value); }
      return Finished(last.value);
    }

    method Close()
      requires Valid()
      modifies this`closed
      ensures Valid() && Now() == old(Now()).(closed := true)
    {
      closed := true;
    }
  }

  method Perform(core: EngineCore, op: Op) returns (reply: Reply)
    requires core.Valid()
    modifies core
    ensures core.Valid() && core.Now() == Applied(core.interval, old(core.Now()), op) && reply == Answer(old(core.Now()), op)
  {
    hide Added, Cleaned, Distributed, AbortedOne, AbortedAll, FailedAll, Taken, Conclusion;
    reply := Nothing;
    match op
    case Add(id) =>
      var ok := core.AddRequest(id);
      reply := Accepted(ok);
    case AddFails(id) => core.Cleanup(id);
    case Step(outputs) => core.Distribute(outputs);
    case AbortOne(id, answer) =>
      var ok := core.Abort(id, answer);
      reply := Accepted(ok);
    case AbortEvery =>
      var n := core.AbortAll();
      reply := Count(n);
    case FailEvery(ids, message) => core.FailAll(ids, message);
    case StreamTake(id) =>
      if id in core.collectors {
        var o := core.Take(id);
        reply := Took(o);
      }
    case StreamEnd(id) => core.Cleanup(id);
    case GenerateWakes(id) =>
      if id in core.events && core.events[id] {
        var r := core.Conclude(id);
        reply := Came(r);
      }
    case GenerateCancelled(id) =>
      var _ := core.Abort(id, true);
      core.Cleanup(id);
    case Shut => core.Close();
  }
}
