/** Per-request output buffering (omlx/output_collector.py). The coroutine get() is modelled by the
    segments between its suspension points: GetBegin, GetResume and GetCancel. */
module Collector {
  import opened Common

  datatype Output = Output(
    id: string,
    newTokens: seq<int>,
    newText: string,
    tokens: seq<int>,
    text: string,
    finished: bool,
    reason: Option<string>,
    promptTokens: nat,
    completionTokens: nat,
    toolCalls: Option<seq<string>>,
    cachedTokens: nat,
    error: Option<string>)

  /** An error counts when it is a non-empty string. */
  predicate HasError(o: Output) { o.error.Some? && o.error.value != "" }

  /** Either way the consumer stops: the request is finished or it failed. */
  predicate Terminal(o: Output) { o.finished || HasError(o) }

  /** _merge_outputs: new pieces are appended, an earlier error survives, the rest is the latest. */
  function Merge(existing: Output, latest: Output): Output {
    latest.(newTokens := existing.newTokens + latest.newTokens,
            newText := existing.newText + latest.newText,
            error := if HasError(latest) then latest.error else existing.error)
  }

  function PutInto(buffer: Option<Output>, o: Output): Option<Output> {
    if buffer.None? then Some(o) else Some(Merge(buffer.value, o))
  }

  // ---------- what a buffer holds ----------

  /** The buffer after a run of puts with no consumer in between. */
  function Buffered(puts: seq<Output>): Option<Output> {
    if puts == [] then None else PutInto(Buffered(puts[..|puts| - 1]), puts[|puts| - 1])
  }

  function AllTokens(puts: seq<Output>): seq<int> {
    if puts == [] then [] else AllTokens(puts[..|puts| - 1]) + puts[|puts| - 1].newTokens
  }

  function AllText(puts: seq<Output>): string {
    if puts == [] then "" else AllText(puts[..|puts| - 1]) + puts[|puts| - 1].newText
  }

  /** The buffer is the latest output, except that it carries all new tokens and text in order, and
      the latest of the errors (so that an error keeps it terminal whatever is merged on top). */
  lemma {:induction false} BufferedIsLossless(puts: seq<Output>)
    requires puts != []
    ensures var b := Buffered(puts);
      && b.Some?
      && b.value == puts[|puts| - 1].(newTokens := AllTokens(puts), newText := AllText(puts), error := b.value.error)
      && if forall o <- puts :: !HasError(o) then !HasError(b.value) else LatestError(puts, b.value.error)
  {
    var front, last := puts[..|puts| - 1], puts[|puts| - 1];
    if HasError(last) {
      assert LatestError(puts, last.error);
    }
    if front == [] {
      assert Buffered(front) == None && AllTokens(front) == [] && AllText(front) == "";
      assert puts == [last];
    } else {
      BufferedIsLossless(front);
      var b := Buffered(front).value;
      if !HasError(last) && !(forall o <- front :: !HasError(o)) {
        var i :| 0 <= i < |front| && HasError(front[i]) && front[i].error == b.error && NoErrorAfter(front, i);
        assert puts[i] == front[i] && NoErrorAfter(puts, i);
      }
      assert forall o <- puts :: o in front || o == last;
    }
  }

  predicate NoErrorAfter(puts: seq<Output>, i: nat) { forall j :: i < j < |puts| ==> !HasError(puts[j]) }

  predicate LatestError(puts: seq<Output>, error: Option<string>) {
    exists i :: 0 <= i < |puts| && HasError(puts[i]) && puts[i].error == error && NoErrorAfter(puts, i)
  }

  lemma TokensOfLast(a: seq<Output>, o: Output)
    ensures AllTokens(a + [o]) == AllTokens(a) + o.newTokens
    ensures AllTokens([]) == []
  {
    assert (a + [o])[..|a|] == a;
  }

  lemma {:induction false} TokensSplit(a: seq<Output>, b: seq<Output>)
    ensures AllTokens(a + b) == AllTokens(a) + AllTokens(b)
  {
    if b == [] {
      assert a + b == a;
    } else {
      var front, o := b[..|b| - 1], b[|b| - 1];
      hide AllTokens;
      TokensSplit(a, front);
      Regroup(a, front, [o]);
      TokensOfLast(a + front, o);
      TokensOfLast(front, o);
      Regroup(AllTokens(a), AllTokens(front), o.newTokens);
      LastApart(b);
    }
  }

  lemma TextOfLast(a: seq<Output>, o: Output)
    ensures AllText(a + [o]) == AllText(a) + o.newText
    ensures AllText([]) == []
  {
    assert (a + [o])[..|a|] == a;
  }

  lemma {:induction false} TextSplits(a: seq<Output>, b: seq<Output>)
    ensures AllText(a + b) == AllText(a) + AllText(b)
  {
    if b == [] {
      assert a + b == a;
    } else {
      var front, o := b[..|b| - 1], b[|b| - 1];
      hide AllText;
      TextSplits(a, front);
      Regroup(a, front, [o]);
      TextOfLast(a + front, o);
      TextOfLast(front, o);
      Regroup(AllText(a), AllText(front), o.newText);
      LastApart(b);
    }
  }

  // ---------- the collector ----------

  /** The class-level counter of collectors with a waiting consumer. */
  class Waiters {
    var count: int
    constructor () ensures count == 0 { count := 0; }
  }

  class RequestOutputCollector {
    var output: Option<Output>
    var ready: bool
    var isWaiting: bool
    const aggregate: bool
    const waiters: Waiters

    constructor (waiters: Waiters, aggregate: bool := true)
      ensures output == None && !ready && !isWaiting
      ensures this.waiters == waiters && this.aggregate == aggregate
    {
      output, ready, isWaiting := None, false, false;
      this.aggregate, this.waiters := aggregate, waiters;
    }

    /** A blocked getter is woken exactly when there is something to take. */
    ghost predicate Valid()
      reads this
    {
      ready <==> output.Some?
    }

    method Put(o: Output)
      requires Valid()
      modifies this`output, this`ready
      ensures Valid()
      ensures output == if aggregate then PutInto(old(output), o) else Some(o)
    {
      if output == None {
        output := Some(o);
      } else if aggregate {
        output := Some(Merge(output.value, o));
      } else {
        output := Some(o);
      }
      ready := true;
    }

    method GetNowait() returns (r: Option<Output>)
      requires Valid()
      modifies this`output, this`ready
      ensures Valid() && r == old(output) && output == None
    {
      r := output;
      if r.Some? {
        output := None;
        ready := false;
      }
    }

    /** The finally clause of get. */
    method StopWaiting()
      modifies this`isWaiting, waiters`count
      ensures !isWaiting
      ensures waiters.count == old(waiters.count) - (if old(isWaiting) then 1 else 0)
    {
      if isWaiting {
        isWaiting := false;
        waiters.count := waiters.count - 1;
      }
    }

    /** get up to its first suspension; None means the caller is now blocked. */
    method GetBegin() returns (r: Option<Output>)
      requires Valid()
      modifies this, waiters`count
      ensures Valid() && r == old(output) && output == None
      ensures isWaiting == r.None?
      ensures waiters.count - (if isWaiting then 1 else 0) == old(waiters.count) - (if old(isWaiting) then 1 else 0)
    {
      if !isWaiting {
        isWaiting := true;
        waiters.count := waiters.count + 1;
      }
      r := GetNowait();
      if r.Some? { StopWaiting(); }
    }

    /** A blocked get runs again; None means it goes back to waiting. */
    method GetResume() returns (r: Option<Output>)
      requires Valid()
      modifies this, waiters`count
      ensures Valid() && r == old(output) && output == None
      ensures isWaiting == (old(isWaiting) && r.None?)
      ensures waiters.count - (if isWaiting then 1 else 0) == old(waiters.count) - (if old(isWaiting) then 1 else 0)
    {
      r := GetNowait();
      if r.Some? { StopWaiting(); }
    }

    method Clear()
      modifies this, waiters`count
      ensures Valid() && output == None && !isWaiting
      ensures waiters.count == old(waiters.count) - (if old(isWaiting) then 1 else 0)
    {
      output := None;
      ready := false;
      if isWaiting {
        isWaiting := false;
        waiters.count := waiters.count - 1;
      }
    }
  }

  // ---------- every interleaving ----------

  /** One step of some task on collector k. */
  datatype Step =
    | Put(k: nat, o: Output)
    | Take(k: nat)
    | Begin(k: nat)
    | Resume(k: nat)
    | Cancel(k: nat)
    | Clear(k: nat)

  function Count(flags: seq<bool>): nat {
    if flags == [] then 0 else (if flags[0] then 1 else 0) + Count(flags[1..])
  }

  lemma {:induction false} CountUpdate(flags: seq<bool>, k: nat, b: bool)
    requires k < |flags|
    ensures Count(flags[k := b]) == Count(flags) - (if flags[k] then 1 else 0) + (if b then 1 else 0)
  {
    if k > 0 {
      CountUpdate(flags[1..], k - 1, b);
      assert flags[k := b][1..] == flags[1..][k - 1 := b];
    } else {
      assert flags[0 := b][1..] == flags[1..];
    }
  }

  function PutsTo(steps: seq<Step>, k: nat): seq<Output> {
    if steps == [] then []
    else
      var last := steps[|steps| - 1];
      PutsTo(steps[..|steps| - 1], k) + if last.Put? && last.k == k then [last.o] else []
  }

  /** What was taken out of a collector at once: an output, the puts it was merged from, and whether a
      consumer received it, or clear discarded it. */
  datatype Piece = Piece(output: Output, sources: seq<Output>, received: bool)

  /** The observable state of a group of collectors: for each, the pieces taken out of it, the puts still
      buffered, the flag, and how many get calls are blocked on it. */
  datatype Group = Group(
    taken: seq<seq<Piece>>,
    pending: seq<seq<Output>>,
    flags: seq<bool>,
    blocked: seq<nat>)

  function Sources(taken: seq<Piece>): seq<Output> {
    if taken == [] then [] else Sources(taken[..|taken| - 1]) + taken[|taken| - 1].sources
  }

  /** A resumed or cancelled get must be blocked. */
  predicate Enabled(s: Step, g: Group) {
    s.k < |g.blocked| == |g.taken| == |g.pending| == |g.flags| && ((s.Resume? || s.Cancel?) ==> g.blocked[s.k] > 0)
  }

  /** One get at a time on each collector, and no clear under a blocked get. */
  predicate SoleConsumer(s: Step, g: Group)
    requires s.k < |g.blocked|
  {
    (s.Begin? || s.Clear?) ==> g.blocked[s.k] == 0
  }

  /** Every piece is the merge of some puts. */
  ghost predicate Merges(taken: seq<Piece>) { forall t <- taken :: t.sources != [] && Buffered(t.sources) == Some(t.output) }

  ghost predicate Faithful(steps: seq<Step>, g: Group) {
    && |g.taken| == |g.pending| == |g.flags| == |g.blocked|
    && forall k :: 0 <= k < |g.taken| ==>
      && Sources(g.taken[k]) + g.pending[k] == PutsTo(steps, k)
      && Merges(g.taken[k])
      && (g.flags[k] ==> g.blocked[k] > 0)
  }

  /** At most one get is blocked, and the flag is raised exactly while it is. */
  ghost predicate Exact(g: Group) {
    |g.flags| == |g.blocked| && forall k :: 0 <= k < |g.flags| ==> g.blocked[k] == if g.flags[k] then 1 else 0
  }

  /** What one step takes out of a collector. */
  function Removed(g: Group, s: Step): Option<Output>
    requires s.k < |g.pending|
  {
    if s.Put? || s.Cancel? then None else Buffered(g.pending[s.k])
  }

  /** What a consumer gets of it. */
  function TakenBy(g: Group, s: Step): Option<Output>
    requires s.k < |g.pending|
  {
    if s.Clear? then None else Removed(g, s)
  }

  /** The flag it leaves, when it takes out r. */
  function Flag(s: Step, was: bool, r: Option<Output>): bool {
    match s
    case Put(_, _) => was
    case Take(_) => was
    case Begin(_) => r.None?
    case Resume(_) => was && r.None?
    case Cancel(_) => false
    case Clear(_) => false
  }

  function After(g: Group, s: Step): Group
    requires s.k < |g.taken| == |g.pending| == |g.flags| == |g.blocked|
  {
    var k, r := s.k, Removed(g, s);
    var blocked :=
      if s.Begin? && r.None? then g.blocked[k] + 1
      else if (s.Cancel? || (s.Resume? && r.Some?)) && g.blocked[k] > 0 then g.blocked[k] - 1
      else g.blocked[k];
    g.(taken := if r.Some? then g.taken[k := g.taken[k] + [Piece(r.value, g.pending[k], !s.Clear?)]] else g.taken,
       pending := g.pending[k := if s.Put? then g.pending[k] + [s.o] else if r.Some? then [] else g.pending[k]],
       flags := g.flags[k := Flag(s, g.flags[k], r)],
       blocked := g.blocked[k := blocked])
  }

  function NewGroup(n: nat): Group { Group(seq(n, _ => []), seq(n, _ => []), seq(n, _ => false), seq(n, _ => 0)) }

  /** Any steps on n collectors; those that are not enabled are passed over. */
  function Reached(n: nat, steps: seq<Step>): (g: Group)
    ensures |g.taken| == |g.pending| == |g.flags| == |g.blocked| == n
  {
    if steps == [] then NewGroup(n)
    else
      var g, s := Reached(n, steps[..|steps| - 1]), steps[|steps| - 1];
      if Enabled(s, g) then After(g, s) else g
  }

  /** The steps that were enabled. */
  function Ran(n: nat, steps: seq<Step>): seq<Step> {
    if steps == [] then []
    else
      var front, s := steps[..|steps| - 1], steps[|steps| - 1];
      Ran(n, front) + if Enabled(s, Reached(n, front)) then [s] else []
  }

  /** What each step took out. */
  function Takings(n: nat, steps: seq<Step>): (r: seq<Option<Output>>)
    ensures |r| == |steps|
  {
    if steps == [] then []
    else
      var front, s := steps[..|steps| - 1], steps[|steps| - 1];
      var g := Reached(n, front);
      Takings(n, front) + [if Enabled(s, g) then TakenBy(g, s) else None]
  }

  /** Nothing put is lost, reordered or duplicated, in any run: the outputs taken are the merges of
      consecutive runs of puts, and these runs followed by the buffered puts are all the puts; and a
      flagged collector has a blocked get. */
  lemma {:induction false} RunIsFaithful(n: nat, steps: seq<Step>)
    ensures Faithful(Ran(n, steps), Reached(n, steps))
  {
    if steps != [] {
      var front, s := steps[..|steps| - 1], steps[|steps| - 1];
      RunIsFaithful(n, front);
      hide Buffered, Sources, PutsTo;
      assert Ran(n, front) + [] == Ran(n, front);
      if Enabled(s, Reached(n, front)) { StepIsFaithful(Ran(n, front), Reached(n, front), s); }
    }
  }

  lemma StepIsFaithful(ran: seq<Step>, g: Group, s: Step)
    requires Faithful(ran, g) && Enabled(s, g)
    ensures Faithful(ran + [s], After(g, s))
  {
    hide Buffered, PutInto;
    var h, k, r := After(g, s), s.k, Removed(g, s);
    assert (ran + [s])[..|ran|] == ran;
    NeverEmpty(g.pending[k]);
    forall j | 0 <= j < |h.taken|
      ensures Sources(h.taken[j]) + h.pending[j] == PutsTo(ran + [s], j)
      ensures Merges(h.taken[j])
      ensures h.flags[j] ==> h.blocked[j] > 0
    {
      if j == k && r.Some? {
        assert h.taken[k][..|g.taken[k]|] == g.taken[k];
        assert Sources(h.taken[k]) == Sources(g.taken[k]) + g.pending[k];
      }
    }
  }

  lemma StepIsExact(g: Group, s: Step)
    requires Exact(g) && Enabled(s, g)
    ensures Exact(After(g, s)) <==> SoleConsumer(s, g)
  {
    hide Buffered;
    var h := After(g, s);
    assert forall k :: 0 <= k < |g.flags| && k != s.k ==> h.flags[k] == g.flags[k] && h.blocked[k] == g.blocked[k];
    assert Exact(h) ==> h.blocked[s.k] == if h.flags[s.k] then 1 else 0;
    assert g.blocked[s.k] == if g.flags[s.k] then 1 else 0;
  }

  /** Every enabled step of the run finds itself alone. */
  predicate AllSole(n: nat, steps: seq<Step>) {
    steps == [] ||
    var front, s := steps[..|steps| - 1], steps[|steps| - 1];
    AllSole(n, front) && (Enabled(s, Reached(n, front)) ==> SoleConsumer(s, Reached(n, front)))
  }

  /** Every state of the run is exact. */
  ghost predicate ExactThroughout(n: nat, steps: seq<Step>) {
    Exact(Reached(n, steps)) && (steps == [] || ExactThroughout(n, steps[..|steps| - 1]))
  }

  /** The flag is raised exactly while a get is blocked, throughout a run, if and only if no get begins
      while another one is blocked on the same collector, and none is blocked when it is cleared. */
  lemma {:induction false} ExactIffSole(n: nat, steps: seq<Step>)
    ensures ExactThroughout(n, steps) <==> AllSole(n, steps)
  {
    if steps != [] {
      var front := steps[..|steps| - 1];
      ExactIffSole(n, front);
      hide Reached, Exact, SoleConsumer, After;
      if ExactThroughout(n, front) { LastStepIsExact(n, steps); }
    }
  }

  lemma LastStepIsExact(n: nat, steps: seq<Step>)
    requires steps != [] && ExactThroughout(n, steps[..|steps| - 1])
    ensures var g, s := Reached(n, steps[..|steps| - 1]), steps[|steps| - 1];
      Exact(Reached(n, steps)) <==> (Enabled(s, g) ==> SoleConsumer(s, g))
  {
    var front, s := steps[..|steps| - 1], steps[|steps| - 1];
    hide Exact, After, SoleConsumer;
    if Enabled(s, Reached(n, front)) { StepIsExact(Reached(n, front), s); }
  }

  /** With two overlapping gets the first to be served lowers the flag for both: it is down while the
      other is still blocked. */
  lemma OverlappingGetsHideAWaiter(g: Group, k: nat)
    requires k < |g.taken| == |g.pending| == |g.flags| == |g.blocked| && g.blocked[k] > 1 && g.pending[k] != []
    ensures var h := After(g, Resume(k)); Enabled(Resume(k), g) && !h.flags[k] && h.blocked[k] == g.blocked[k] - 1 > 0
  {
    NeverEmpty(g.pending[k]);
  }

  lemma ReachedNext(n: nat, steps: seq<Step>, s: Step)
    ensures var g := Reached(n, steps);
      && Reached(n, steps + [s]) == (if Enabled(s, g) then After(g, s) else g)
      && Takings(n, steps + [s]) == Takings(n, steps) + [if Enabled(s, g) then TakenBy(g, s) else None]
  {
    assert (steps + [s])[..|steps|] == steps;
  }

  lemma NeverEmpty(puts: seq<Output>)
    ensures Buffered(puts).None? <==> puts == []
  {
  }

  /** The outputs that consumers received. */
  function Received(taken: seq<Piece>): seq<Output> {
    if taken == [] then []
    else Received(taken[..|taken| - 1]) + if taken[|taken| - 1].received then [taken[|taken| - 1].output] else []
  }

  /** The puts behind the pieces received, or behind those discarded. */
  function SourcesOf(taken: seq<Piece>, received: bool): seq<Output> {
    if taken == [] then []
    else SourcesOf(taken[..|taken| - 1], received) + if taken[|taken| - 1].received == received then taken[|taken| - 1].sources else []
  }

  /** What consumers received carries all that it was merged from. */
  lemma {:induction false} ReceivedCarriesSources(taken: seq<Piece>)
    requires Merges(taken)
    ensures AllTokens(Received(taken)) == AllTokens(SourcesOf(taken, true))
    ensures AllText(Received(taken)) == AllText(SourcesOf(taken, true))
  {
    if taken != [] {
      var front, last := taken[..|taken| - 1], taken[|taken| - 1];
      ReceivedCarriesSources(front);
      assert last in taken;
      hide Buffered, AllTokens, AllText;
      if last.received {
        BufferedIsLossless(last.sources);
        TokensSplit(SourcesOf(front, true), last.sources);
        TextSplits(SourcesOf(front, true), last.sources);
        TokensOfLast(Received(front), last.output);
        TextOfLast(Received(front), last.output);
      } else {
        assert Received(front) + [] == Received(front) && SourcesOf(front, true) + [] == SourcesOf(front, true);
      }
    }
  }

  /** Nothing is missing from what was received exactly if nothing with tokens was discarded. */
  lemma {:induction false} TokensDiscarded(taken: seq<Piece>)
    ensures var all, kept, gone := AllTokens(Sources(taken)), AllTokens(SourcesOf(taken, true)), AllTokens(SourcesOf(taken, false));
      |all| == |kept| + |gone| && (gone == [] ==> all == kept)
  {
    if taken != [] {
      var front, last := taken[..|taken| - 1], taken[|taken| - 1];
      TokensDiscarded(front);
      hide AllTokens;
      TokensSplit(Sources(front), last.sources);
      TokensSplit(SourcesOf(front, last.received), last.sources);
      assert SourcesOf(front, !last.received) + [] == SourcesOf(front, !last.received);
    }
  }

  lemma {:induction false} TextDiscarded(taken: seq<Piece>)
    ensures var all, kept, gone := AllText(Sources(taken)), AllText(SourcesOf(taken, true)), AllText(SourcesOf(taken, false));
      |all| == |kept| + |gone| && (gone == [] ==> all == kept)
  {
    if taken != [] {
      var front, last := taken[..|taken| - 1], taken[|taken| - 1];
      TextDiscarded(front);
      hide AllText;
      TextSplits(Sources(front), last.sources);
      TextSplits(SourcesOf(front, last.received), last.sources);
      assert SourcesOf(front, !last.received) + [] == SourcesOf(front, !last.received);
    }
  }

  /** Lossless delivery: the new tokens, and the text, that consumers received from a collector, followed
      by what is still buffered, are those of everything put into it, in order, if and only if clear has
      discarded none. */
  lemma LosslessDelivery(steps: seq<Step>, g: Group, k: nat)
    requires Faithful(steps, g) && k < |g.taken|
    ensures AllTokens(Received(g.taken[k])) + AllTokens(g.pending[k]) == AllTokens(PutsTo(steps, k))
       <==> AllTokens(SourcesOf(g.taken[k], false)) == []
    ensures AllText(Received(g.taken[k])) + AllText(g.pending[k]) == AllText(PutsTo(steps, k))
       <==> AllText(SourcesOf(g.taken[k], false)) == []
  {
    var taken, pending := g.taken[k], g.pending[k];
    assert Sources(taken) + pending == PutsTo(steps, k) && Merges(taken);
    hide Faithful, Merges, AllTokens, AllText, Sources, SourcesOf, Received, PutsTo;
    ReceivedCarriesSources(taken);
    TokensDiscarded(taken);
    TextDiscarded(taken);
    TokensSplit(Sources(taken), pending);
    TextSplits(Sources(taken), pending);
  }

  /** The outputs that the steps of collector k's consumers took. */
  function Collected(steps: seq<Step>, took: seq<Option<Output>>, k: nat): seq<Output>
    requires |took| == |steps|
  {
    if steps == [] then []
    else
      var n := |steps| - 1;
      Collected(steps[..n], took[..n], k) + if steps[n].k == k && took[n].Some? then [took[n].value] else []
  }

  /** Received are exactly the outputs that steps took, in their order; clear takes none. */
  lemma {:induction false} ReceivedIsCollected(n: nat, steps: seq<Step>, k: nat)
    requires k < n
    ensures Received(Reached(n, steps).taken[k]) == Collected(steps, Takings(n, steps), k)
  {
    if steps != [] {
      var front, s := steps[..|steps| - 1], steps[|steps| - 1];
      ReceivedIsCollected(n, front, k);
      assert Takings(n, steps)[..|front|] == Takings(n, front);
      var g := Reached(n, front);
      hide Buffered;
      if Enabled(s, g) { ReceivedNext(g, s, k); }
    } else {
      assert Reached(n, []).taken[k] == [];
    }
  }

  lemma ReceivedNext(g: Group, s: Step, k: nat)
    requires Enabled(s, g) && k < |g.taken|
    ensures Received(After(g, s).taken[k])
         == Received(g.taken[k]) + if s.k == k && TakenBy(g, s).Some? then [TakenBy(g, s).value] else []
  {
    var r := Removed(g, s);
    hide Buffered;
    if r.Some? && s.k == k {
      var more := g.taken[k] + [Piece(r.value, g.pending[k], !s.Clear?)];
      assert more[..|more| - 1] == g.taken[k];
    }
  }

  // ---------- the collectors as they run ----------

  ghost predicate Represents(cs: seq<RequestOutputCollector>, waiters: Waiters, g: Group)
    reads cs, waiters
  {
    && |cs| == |g.taken| == |g.pending| == |g.flags| == |g.blocked|
    && (forall k :: 0 <= k < |cs| ==>
          && cs[k].Valid() && cs[k].waiters == waiters && cs[k].aggregate
          && cs[k].output == Buffered(g.pending[k]) && cs[k].isWaiting == g.flags[k])
    && (forall j, k :: 0 <= j < k < |cs| ==> cs[j] != cs[k])
    && waiters.count == Count(g.flags)
  }

  /** Any steps of any tasks on n collectors: what each step takes, what is left in the buffers, which
      collectors are flagged, and their number in the counter. A get runs on, or is cancelled, when
      it is blocked. */
  method Interleave(n: nat, steps: seq<Step>)
    returns (took: seq<Option<Output>>, left: seq<Option<Output>>, flags: seq<bool>, waiting: int)
    ensures took == Takings(n, steps)
    ensures forall k :: 0 <= k < n ==> Collected(steps, took, k) == Received(Reached(n, steps).taken[k])
    ensures |left| == n && forall k :: 0 <= k < n ==> left[k] == Buffered(Reached(n, steps).pending[k])
    ensures flags == Reached(n, steps).flags && waiting == Count(flags)
    ensures AllSole(n, steps) ==> forall k :: 0 <= k < n ==> (flags[k] <==> Reached(n, steps).blocked[k] > 0)
  {
    var cs, waiters := MakeGroup(n);
    took := [];
    var blocked := seq(n, _ => 0);
    NoneFlagged(n);
    assert Represents(cs, waiters, NewGroup(n));
    for i := 0 to |steps|
      invariant fresh(waiters) && fresh(set c <- cs) && Represents(cs, waiters, Reached(n, steps[..i]))
      invariant |cs| == n && blocked == Reached(n, steps[..i]).blocked
      invariant took == Takings(n, steps[..i])
    {
      ghost var g := Reached(n, steps[..i]);
      hide *;
      assert steps[..i + 1] == steps[..i] + [steps[i]];
      ReachedNext(n, steps[..i], steps[i]);
      var r;
      r, blocked := Advance(cs, waiters, steps[i], blocked, g);
      took := took + [r];
    }
    assert steps[..|steps|] == steps;
    ExactIffSole(n, steps);
    forall k | 0 <= k < n ensures Collected(steps, took, k) == Received(Reached(n, steps).taken[k]) {
      ReceivedIsCollected(n, steps, k);
    }
    left := Outputs(cs);
    flags := Flags(cs);
    waiting := waiters.count;
  }

  method Advance(cs: seq<RequestOutputCollector>, waiters: Waiters, s: Step, blocked: seq<nat>, ghost g: Group)
    returns (r: Option<Output>, blocked': seq<nat>)
    requires Represents(cs, waiters, g) && blocked == g.blocked
    modifies cs, waiters
    ensures r == if Enabled(s, g) then TakenBy(g, s) else None
    ensures var h := if Enabled(s, g) then After(g, s) else g; Represents(cs, waiters, h) && blocked' == h.blocked
  {
    r, blocked' := None, blocked;
    if s.k < |blocked| && ((s.Resume? || s.Cancel?) ==> blocked[s.k] > 0) {
      hide After, Represents, TakenBy;
      r := Perform(cs, waiters, s, g);
      blocked' := Blocking(blocked, s, r, g);
    }
  }

  /** How many gets are blocked after a step that took out r. */
  method Blocking(blocked: seq<nat>, s: Step, r: Option<Output>, ghost g: Group) returns (after: seq<nat>)
    requires Enabled(s, g) && blocked == g.blocked && r == TakenBy(g, s)
    ensures after == After(g, s).blocked
  {
    if s.Begin? && r.None? {
      after := blocked[s.k := blocked[s.k] + 1];
    } else if s.Cancel? || (s.Resume? && r.Some?) {
      after := blocked[s.k := blocked[s.k] - 1];
    } else {
      after := blocked;
    }
  }

  function Outputs(cs: seq<RequestOutputCollector>): (r: seq<Option<Output>>)
    reads cs
    ensures |r| == |cs| && forall k :: 0 <= k < |cs| ==> r[k] == cs[k].output
  {
    if cs == [] then [] else [cs[0].output] + Outputs(cs[1..])
  }

  function Flags(cs: seq<RequestOutputCollector>): (r: seq<bool>)
    reads cs
    ensures |r| == |cs| && forall k :: 0 <= k < |cs| ==> r[k] == cs[k].isWaiting
  {
    if cs == [] then [] else [cs[0].isWaiting] + Flags(cs[1..])
  }

  method MakeGroup(n: nat) returns (cs: seq<RequestOutputCollector>, waiters: Waiters)
    ensures fresh(waiters) && waiters.count == 0 && |cs| == n && fresh(set c <- cs)
    ensures forall k :: 0 <= k < n ==> cs[k].Valid() && cs[k].output == None && !cs[k].isWaiting
                                       && cs[k].waiters == waiters && cs[k].aggregate
    ensures forall j, k :: 0 <= j < k < n ==> cs[j] != cs[k]
  {
    waiters := new Waiters();
    cs := [];
    for i := 0 to n
      invariant |cs| == i && waiters.count == 0 && fresh(waiters) && fresh(set c <- cs)
      invariant forall k :: 0 <= k < i ==> cs[k].Valid() && cs[k].output == None && !cs[k].isWaiting
                                           && cs[k].waiters == waiters && cs[k].aggregate
      invariant forall j, k :: 0 <= j < k < i ==> cs[j] != cs[k]
    {
      var c := new RequestOutputCollector(waiters);
      assert c !in cs;
      cs := cs + [c];
    }
  }

  method DoStep(c: RequestOutputCollector, s: Step) returns (r: Option<Output>)
    requires c.Valid() && c.aggregate
    modifies c, c.waiters
    ensures c.Valid()
    ensures r == (if s.Put? || s.Cancel? || s.Clear? then None else old(c.output))
    ensures c.output == if s.Put? then PutInto(old(c.output), s.o) else if s.Cancel? then old(c.output) else None
    ensures c.isWaiting == Flag(s, old(c.isWaiting), r)
    ensures c.waiters.count - (if c.isWaiting then 1 else 0) == old(c.waiters.count - (if c.isWaiting then 1 else 0))
  {
    r := None;
    if s.Put? {
      c.Put(s.o);
    } else if s.Take? {
      r := c.GetNowait();
    } else if s.Begin? {
      r := c.GetBegin();
    } else if s.Resume? {
      r := c.GetResume();
    } else if s.Cancel? {
      c.StopWaiting();
    } else {
      c.Clear();
    }
  }

  method Perform(cs: seq<RequestOutputCollector>, waiters: Waiters, s: Step, ghost g: Group) returns (r: Option<Output>)
    requires Represents(cs, waiters, g) && Enabled(s, g)
    modifies cs, waiters
    ensures r == TakenBy(g, s) && Represents(cs, waiters, After(g, s))
  {
    hide Count, Buffered, PutInto;
    r := DoStep(cs[s.k], s);
    CountUpdate(g.flags, s.k, cs[s.k].isWaiting);
    BufferedGrows(g.pending[s.k], s);
    NeverEmpty(g.pending[s.k]);
    forall k | 0 <= k < |cs| && k != s.k ensures cs[k] != cs[s.k] {}
  }

  lemma BufferedGrows(puts: seq<Output>, s: Step)
    ensures Buffered([]) == None
    ensures s.Put? ==> Buffered(puts + [s.o]) == PutInto(Buffered(puts), s.o)
  {
    if s.Put? { assert (puts + [s.o])[..|puts|] == puts; }
  }

  lemma {:induction false} NoneFlagged(n: nat)
    ensures Count(seq(n, _ => false)) == 0
  {
    if n > 0 {
      NoneFlagged(n - 1);
      assert seq(n, _ => false)[1..] == seq(n - 1, _ => false);
    }
  }
}
