/** The Responses API event stream (omlx/server.py, stream_responses_api). Parser, filter and
    tool-extraction results are arbitrary input. */
module ResponsesStream {
  import opened Common

  datatype Kind = Reasoning | Message | FunctionCall

  /** A finished output item; the name is the function name of a call. */
  datatype Item = Item(kind: Kind, name: string, text: string)

  datatype Body =
    | Created
    | InProgress
    | ItemAdded(index: int, kind: Kind, name: string)
    | PartAdded(index: int)
    | Delta(index: int, of: Kind, text: string)
    | TextDone(index: int, text: string)
    | PartDone(index: int, text: string)
    | ItemDone(index: int, item: Item)
    | Completed(output: seq<Item>)
    | Failed

  datatype Event = Event(sequence: nat, body: Body)

  /** One engine output: what the parser found, and the content left by the tool-call filter. */
  datatype Chunk = Chunk(thinking: string, content: string, shown: string)

  datatype Call = Call(name: string, arguments: string)

  /** One run. With native reasoning, thinking is streamed as its own item. Without stream content
      (tools, but no known markup) nothing is parsed and late is sent at the end. */
  datatype Input = Input(
    native: bool,
    streamContent: bool,
    chunks: seq<Chunk>,
    broken: bool,
    flushThinking: string,
    flushShown: string,
    held: string,
    late: string,
    finalText: string,
    calls: seq<Call>)

  // ---------- a strict client ----------

  datatype Stage = Opened | Streaming | TextClosed | PartClosed

  /** Greeted(n): n of the two opening events have arrived. */
  datatype Client =
    | Greeted(n: nat)
    | Client(done: seq<Item>, open: Option<Item>, stage: Stage, ended: bool)
    | Rejected

  const START := Client([], None, Opened, false)

  /** One item at a time, with indices 0, 1, 2, ...; the text reported for reasoning and for call
      arguments must be the concatenation of their deltas, and the completed response must list
      exactly the items received. */
  function Receive(c: Client, b: Body): Client {
    if c.Greeted? then
      if c.n == 0 && b == Created then Greeted(1) else if c.n == 1 && b == InProgress then START else Rejected
    else if c.Rejected? || c.ended then Rejected
    else if c.open.None? then
      match b
      case ItemAdded(i, kind, name) =>
        if i == |c.done| then c.(open := Some(Item(kind, name, "")), stage := if kind == FunctionCall then Streaming else Opened)
        else Rejected
      case Completed(output) => if output == c.done then c.(ended := true) else Rejected
      case Failed => c.(ended := true)
      case _ => Rejected
    else
      var item := c.open.value;
      match b
      case PartAdded(i) => if i == |c.done| && c.stage == Opened then c.(stage := Streaming) else Rejected
      case Delta(i, kind, text) =>
        if i == |c.done| && c.stage == Streaming && kind == item.kind
        then c.(open := Some(item.(text := item.text + text))) else Rejected
      case TextDone(i, text) =>
        if i == |c.done| && c.stage == Streaming && (item.kind == Message || text == item.text)
        then c.(open := Some(item.(text := text)), stage := if item.kind == FunctionCall then PartClosed else TextClosed)
        else Rejected
      case PartDone(i, text) =>
        if i == |c.done| && c.stage == TextClosed && text == item.text then c.(stage := PartClosed) else Rejected
      case ItemDone(i, it) =>
        if i == |c.done| && c.stage == PartClosed && it == item then Client(c.done + [item], None, Opened, false) else Rejected
      case Failed => c.(ended := true)
      case _ => Rejected
  }

  function Received(es: seq<Event>): Client {
    if es == [] then Greeted(0) else Receive(Received(es[..|es| - 1]), es[|es| - 1].body)
  }

  /** Sequence numbers 1, 2, 3, ... */
  predicate Numbered(es: seq<Event>) { forall i :: 0 <= i < |es| ==> es[i].sequence == i + 1 }

  /** The client accepts every event and has seen the end. */
  predicate Accepted(es: seq<Event>) { Received(es).Client? && Received(es).ended }

  function Delivered(es: seq<Event>): seq<Item>
    requires Accepted(es)
  {
    Received(es).done
  }

  // ---------- what is streamed ----------

  /** The texts of the deltas for items of this kind. */
  function Deltas(es: seq<Event>, kind: Kind): seq<string> {
    if es == [] then []
    else Deltas(es[..|es| - 1], kind) + Text(es[|es| - 1].body, kind)
  }

  lemma DeltasNext(es: seq<Event>, e: Event, kind: Kind)
    ensures Deltas(es + [e], kind) == Deltas(es, kind) + Text(e.body, kind)
  {
    assert (es + [e])[..|es|] == es;
  }

  /** The events es have grown to more by these deltas. */
  ghost predicate Grown(es: seq<Event>, more: seq<Event>, message: seq<string>, reasoning: seq<string>, calls: seq<string>) {
    && Deltas(more, Message) == Deltas(es, Message) + message
    && Deltas(more, Reasoning) == Deltas(es, Reasoning) + reasoning
    && Deltas(more, FunctionCall) == Deltas(es, FunctionCall) + calls
  }

  function Text(b: Body, kind: Kind): seq<string> { if b.Delta? && b.of == kind then [b.text] else [] }

  /** There is a delta for a piece of text only if there is text. */
  function Piece(text: string): seq<string> { if text == "" then [] else [text] }

  /** What the chunks have to show: of those with content, what the filter lets through. */
  function Shown(cs: seq<Chunk>): seq<string> {
    if cs == [] then []
    else Shown(cs[..|cs| - 1]) + if cs[|cs| - 1].content != "" then Piece(cs[|cs| - 1].shown) else []
  }

  function Thoughts(cs: seq<Chunk>): seq<string> {
    if cs == [] then [] else Thoughts(cs[..|cs| - 1]) + Piece(cs[|cs| - 1].thinking)
  }

  function Arguments(calls: seq<Call>): seq<string> { seq(|calls|, i requires 0 <= i < |calls| => calls[i].arguments) }

  lemma GrowsOn(
      es: seq<Event>, more: seq<Event>, all: seq<Event>,
      message: seq<string>, calls: seq<string>, message1: seq<string>, calls1: seq<string>)
    requires Grown(es, more, message, [], calls) && Grown(more, all, message1, [], calls1)
    ensures Grown(es, all, message + message1, [], calls + calls1)
  {
  }

  lemma GrowsThrough(es: seq<seq<Event>>, message: seq<string>, calls: seq<string>)
    requires |es| == 6 && Grown(es[0], es[1], [], [], []) && Grown(es[1], es[2], message, [], [])
    requires Grown(es[2], es[3], [], [], []) && Grown(es[3], es[4], [], [], calls) && Grown(es[4], es[5], [], [], [])
    ensures Grown(es[0], es[5], message, [], calls)
  {
  }

  /** What the message gets after the last chunk. */
  function Tail(inp: Input): seq<string> {
    if inp.streamContent then Piece(inp.flushShown) + Piece(inp.held) else Piece(inp.late)
  }

  /** All deltas of a run, kind by kind: the shown parts of the chunks, then, if the run is complete, what
      the final flush and the filter still hold, or, without stream content, the text sent late. */
  ghost predicate Streamed(es: seq<Event>, inp: Input) {
    && Deltas(es, Message) == (if inp.streamContent then Shown(inp.chunks) else [])
       + (if inp.broken then [] else Tail(inp))
    && Deltas(es, Reasoning) == (if inp.native && inp.streamContent then Thoughts(inp.chunks) else [])
    && Deltas(es, FunctionCall) == (if inp.broken then [] else Arguments(inp.calls))
  }

  // ---------- when the lifecycle is clean ----------

  /** No thinking after the first content. */
  predicate ThinkingFirst(cs: seq<Chunk>) {
    forall i, j :: 0 <= i < j < |cs| && cs[i].content != "" ==> cs[j].thinking == ""
  }

  predicate Tidy(inp: Input) {
    inp.native && inp.streamContent ==> ThinkingFirst(inp.chunks) && (inp.broken || inp.flushThinking == "")
  }

  function AllThinking(cs: seq<Chunk>): string {
    if cs == [] then "" else AllThinking(cs[..|cs| - 1]) + cs[|cs| - 1].thinking
  }

  // ---------- the emitter ----------

  /** The generator's variables and the events it has yielded. */
  class Emitter {
    const native: bool
    var sequence: nat
    var reasoningOpened: bool
    var reasoningClosed: bool
    var messageOpened: bool
    var nextIndex: nat
    var messageIndex: Option<nat>
    var reasoning: string
    var events: seq<Event>
    /** What a strict client of the events knows. */
    ghost var client: Client

    constructor (native: bool)
      ensures this.native == native && Idle() && Sound() && client == Greeted(0) && events == []
    {
      this.native := native;
      sequence, nextIndex, messageIndex, reasoning, events := 0, 0, None, "", [];
      reasoningOpened, reasoningClosed, messageOpened := false, false, false;
      client := Greeted(0);
    }

    ghost predicate Sound()
      reads this
    {
      client == Received(events) && Numbered(events) && sequence == |events|
    }

    /** Nothing opened yet. */
    ghost predicate Fresh()
      reads this
    {
      Idle() && client == START
    }

    ghost predicate Idle()
      reads this
    {
      && !reasoningOpened && !reasoningClosed && !messageOpened && nextIndex == 0 && messageIndex == None
      && reasoning == ""
    }

    /** The reasoning item is being streamed. */
    ghost predicate InReasoning()
      reads this
    {
      && reasoningOpened && !reasoningClosed && !messageOpened && nextIndex == 0 && messageIndex == None
      && client == Client([], Some(Item(Reasoning, "", reasoning)), Streaming, false)
    }

    /** Reasoning, if any, is over. */
    ghost predicate Before()
      reads this
    {
      && reasoningClosed == reasoningOpened && !messageOpened && nextIndex == |ReasoningDone()| && messageIndex == None
      && client == Client(ReasoningDone(), None, Opened, false)
    }

    /** The message is being streamed, after the reasoning if there was any. */
    ghost predicate InMessage()
      reads this
    {
      && reasoningClosed == reasoningOpened && messageOpened && nextIndex == |ReasoningDone()|
      && (messageIndex.Some? ==> messageIndex.value == nextIndex)
      && client.Client? && client.done == ReasoningDone() && !client.ended && client.stage == Streaming
      && client.open.Some? && client.open.value.kind == Message && client.open.value.name == ""
    }

    ghost function ReasoningDone(): seq<Item>
      reads this
    {
      if reasoningOpened then [Item(Reasoning, "", reasoning)] else []
    }

    /** These deltas have been sent. */
    ghost predicate Sent(message: seq<string>, reasoning: seq<string>, calls: seq<string>)
      reads this
    {
      Deltas(events, Message) == message && Deltas(events, Reasoning) == reasoning && Deltas(events, FunctionCall) == calls
    }

    ghost predicate Unmoved(es: seq<Event>, c: Client, m: bool, ro: bool, rc: bool)
      reads this
    {
      events == es && client == c && messageOpened == m && reasoningOpened == ro && reasoningClosed == rc
    }

    method Yield(b: Body)
      requires Sound()
      modifies this`sequence, this`events, this`client
      ensures Sound() && client == Receive(old(client), b)
      ensures |events| == |old(events)| + 1 && events[|events| - 1].body == b
      ensures Grown(old(events), events, Text(b, Message), Text(b, Reasoning), Text(b, FunctionCall))
    {
      sequence := sequence + 1;
      DeltasNext(events, Event(sequence, b), Message);
      DeltasNext(events, Event(sequence, b), Reasoning);
      DeltasNext(events, Event(sequence, b), FunctionCall);
      assert (events + [Event(sequence, b)])[..|events|] == events;
      events := events + [Event(sequence, b)];
      client := Receive(client, b);
    }

    method OpenReasoning()
      requires Sound()
      modifies this
      ensures Sound() && reasoning == old(reasoning) && reasoningOpened
      ensures reasoningClosed == old(reasoningClosed) && messageOpened == old(messageOpened)
      ensures nextIndex == old(nextIndex) && messageIndex == old(messageIndex)
      ensures old(reasoningOpened) ==> events == old(events) && client == old(client)
      ensures old(Fresh()) ==> InOpening()
      ensures old(client.Rejected?) || (!old(reasoningOpened) && old(InMessage())) ==> client.Rejected?
      ensures Grown(old(events), events, [], [], [])
    {
      hide Received, Numbered, Deltas;
      if reasoningOpened { return; }
      reasoningOpened := true;
      Yield(ItemAdded(nextIndex, Reasoning, ""));
      Yield(PartAdded(nextIndex));
    }

    /** Reasoning opened, with no text sent yet. */
    ghost predicate InOpening()
      reads this
    {
      && reasoningOpened && !reasoningClosed && !messageOpened && nextIndex == 0 && messageIndex == None
      && client == Client([], Some(Item(Reasoning, "", "")), Streaming, false)
    }

    method CloseReasoning()
      requires Sound()
      modifies this
      ensures Sound() && reasoning == old(reasoning) && messageOpened == old(messageOpened)
      ensures reasoningOpened == old(reasoningOpened)
      ensures messageIndex == old(messageIndex)
      ensures old(reasoningClosed) || !old(reasoningOpened) ==> nextIndex == old(nextIndex)
      ensures old(reasoningClosed) || !old(reasoningOpened) ==>
        Unmoved(old(events), old(client), old(messageOpened), old(reasoningOpened), old(reasoningClosed))
      ensures old(InReasoning()) ==> Before()
      ensures old(client.Rejected?) ==> client.Rejected?
      ensures Grown(old(events), events, [], [], [])
    {
      hide Received, Numbered, Deltas;
      if reasoningClosed || !reasoningOpened { return; }
      reasoningClosed := true;
      var index := nextIndex;
      nextIndex := nextIndex + 1;
      Yield(TextDone(index, reasoning));
      Yield(PartDone(index, reasoning));
      Yield(ItemDone(index, Item(Reasoning, "", reasoning)));
    }

    method OpenMessage()
      requires Sound()
      modifies this
      ensures Sound() && reasoning == old(reasoning) && messageOpened
      ensures reasoningOpened == old(reasoningOpened) && reasoningClosed == old(reasoningClosed)
      ensures nextIndex == old(nextIndex) && messageIndex == old(messageIndex)
      ensures old(messageOpened) ==> events == old(events) && client == old(client)
      ensures old(Before()) ==> InMessage()
      ensures old(client.Rejected?) ==> client.Rejected?
      ensures Grown(old(events), events, [], [], [])
    {
      hide Received, Numbered, Deltas;
      if messageOpened { return; }
      messageOpened := true;
      Yield(ItemAdded(nextIndex, Message, ""));
      Yield(PartAdded(nextIndex));
    }

    /** A piece of thinking, with native reasoning. */
    method Think(text: string)
      requires Sound() && native
      requires client.Rejected? || Fresh() || InReasoning() || InMessage()
      modifies this
      ensures Sound() && reasoning == if text == "" then old(reasoning) else old(reasoning) + text
      ensures text == "" ==> Unmoved(old(events), old(client), old(messageOpened), old(reasoningOpened), old(reasoningClosed))
      ensures nextIndex == old(nextIndex) && messageIndex == old(messageIndex)
      ensures text != "" && old(client.Rejected? || InMessage()) ==> client.Rejected?
      ensures text != "" && old(Fresh() || InReasoning()) ==> InReasoning()
      ensures Grown(old(events), events, [], Piece(text), [])
    {
      hide Received, Numbered, Deltas;
      if text == "" { return; }
      ghost var sofar := reasoning;
      OpenReasoning();
      reasoning := reasoning + text;
      assert "" + text == text;
      Yield(Delta(if !reasoningClosed then 0 else nextIndex - 1, Reasoning, text));
    }

    /** A piece of content: it ends the reasoning and starts the message, even when the tool-call
        filter then holds all of it back. */
    method Speak(content: string, shown: string)
      requires Sound()
      requires client.Rejected? || Fresh() || InReasoning() || InMessage()
      requires reasoningOpened ==> native
      modifies this
      ensures Sound() && reasoning == old(reasoning) && reasoningOpened == old(reasoningOpened)
      ensures content == "" ==> nextIndex == old(nextIndex) && messageIndex == old(messageIndex)
      ensures content == "" ==>
        Unmoved(old(events), old(client), old(messageOpened), old(reasoningOpened), old(reasoningClosed))
      ensures old(client.Rejected?) ==> client.Rejected?
      ensures content != "" && !old(client.Rejected?) ==> InMessage() && messageIndex.Some?
      ensures Grown(old(events), events, if content != "" then Piece(shown) else [], [], [])
    {
      hide Received, Numbered, Deltas;
      if content == "" { return; }
      if native && reasoningOpened && !reasoningClosed { CloseReasoning(); }
      OpenMessage();
      FixMessageIndex();
      Say(shown);
    }

    /** The message's output index is read off once. */
    method FixMessageIndex()
      modifies this`messageIndex
      ensures messageIndex == if old(messageIndex).None? then Some(nextIndex) else old(messageIndex)
    {
      if messageIndex.None? { messageIndex := Some(nextIndex); }
    }

    /** A text delta, if there is text. */
    method Say(text: string)
      requires Sound() && messageIndex.Some?
      requires client.Rejected? || InMessage()
      modifies this
      ensures messageIndex == old(messageIndex)
      ensures Sound() && reasoning == old(reasoning) && reasoningOpened == old(reasoningOpened)
      ensures reasoningClosed == old(reasoningClosed) && messageOpened == old(messageOpened) && nextIndex == old(nextIndex)
      ensures if old(client.Rejected?) then client.Rejected? else InMessage()
      ensures Grown(old(events), events, Piece(text), [], [])
    {
      hide Received, Numbered, Deltas;
      if text != "" { Yield(Delta(messageIndex.value, Message, text)); }
    }
  }
  // ---------- a whole run ----------

  ghost predicate HasContent(cs: seq<Chunk>) { exists i :: 0 <= i < |cs| && cs[i].content != "" }

  /** The state of a run after some chunks. */
  ghost predicate Coherent(e: Emitter, seen: seq<Chunk>)
    reads e
  {
    && e.Sound() && (e.reasoningOpened ==> e.native)
    && e.reasoning == (if e.native then AllThinking(seen) else "")
    && e.Sent(Shown(seen), if e.native then Thoughts(seen) else [], [])
    && if e.native && !ThinkingFirst(seen) then e.client.Rejected?
       else
         && (e.reasoningOpened <==> e.reasoning != "")
         && (if !e.native || HasContent(seen) then e.InMessage() && (e.native ==> e.messageIndex.Some?)
             else e.Fresh() || e.InReasoning())
  }

  /** The opening events; without native reasoning the message starts at once. */
  method Welcome(e: Emitter)
    requires e.Idle() && e.Sound() && e.client == Greeted(0) && e.events == []
    modifies e
    ensures Coherent(e, [])
  {
    hide Received, Numbered, Deltas;
    e.Yield(Created);
    e.Yield(InProgress);
    if !e.native { e.OpenMessage(); }
    NoDeltas();
  }

  lemma NoDeltas()
    ensures forall kind: Kind :: Deltas([], kind) == []
  {
  }

  method OneChunk(e: Emitter, c: Chunk, ghost seen: seq<Chunk>)
    requires Coherent(e, seen)
    modifies e
    ensures Coherent(e, seen + [c])
  {
    ChunkSeen(seen, c);
    hide Received, Numbered, Deltas, Receive, AllThinking, ThinkingFirst, HasContent, Shown, Thoughts;
    if e.native { e.Think(c.thinking); }
    e.Speak(c.content, c.shown);
  }

  lemma ChunkSeen(seen: seq<Chunk>, c: Chunk)
    ensures AllThinking(seen + [c]) == AllThinking(seen) + c.thinking
    ensures ThinkingFirst(seen + [c]) <==> ThinkingFirst(seen) && (HasContent(seen) ==> c.thinking == "")
    ensures HasContent(seen + [c]) <==> HasContent(seen) || c.content != ""
    ensures Shown(seen + [c]) == Shown(seen) + if c.content != "" then Piece(c.shown) else []
    ensures Thoughts(seen + [c]) == Thoughts(seen) + Piece(c.thinking)
  {
    var all := seen + [c];
    assert all[..|seen|] == seen;
    if HasContent(seen) {
      var i :| 0 <= i < |seen| && seen[i].content != "";
      assert all[i].content != "" && all[|seen|] == c;
    }
    if c.content != "" { assert all[|seen|].content != ""; }
    if ThinkingFirst(all) {
      forall i, j | 0 <= i < j < |seen| && seen[i].content != "" ensures seen[j].thinking == "" {
        assert all[i] == seen[i] && all[j] == seen[j];
      }
    }
  }

  method Chunks(e: Emitter, cs: seq<Chunk>)
    requires Coherent(e, [])
    modifies e
    ensures Coherent(e, cs)
  {
    hide Coherent;
    for i := 0 to |cs|
      invariant Coherent(e, cs[..i])
    {
      assert cs[..i + 1] == cs[..i] + [cs[i]];
      OneChunk(e, cs[i], cs[..i]);
    }
    assert cs[..|cs|] == cs;
  }

  /** The end of the outputs: reasoning is closed and the message is open, whatever was streamed. */
  method Settle(e: Emitter, ghost seen: seq<Chunk>)
    requires Coherent(e, seen)
    modifies e
    ensures e.Sound() && e.messageIndex.Some? && e.reasoning == old(e.reasoning)
    ensures if e.native && !ThinkingFirst(seen) then e.client.Rejected? else e.InMessage() && e.ReasoningDone() == ReasoningItems(e.reasoning)
    ensures Grown(old(e.events), e.events, [], [], [])
  {
    hide Received, Numbered, Deltas, Receive, AllThinking, ThinkingFirst, HasContent, Shown, Thoughts;
    if e.native && e.reasoningOpened && !e.reasoningClosed { e.CloseReasoning(); }
    e.OpenMessage();
    e.FixMessageIndex();
  }

  function ReasoningItems(text: string): seq<Item> { if text != "" then [Item(Reasoning, "", text)] else [] }

  /** A client about to receive the closing events, or one that has given up. */
  ghost predicate AtMessage(c: Client, before: seq<Item>) {
    || c.Rejected?
    || (c.Client? && c.done == before && !c.ended && c.stage == Streaming && c.open.Some? && c.open.value.kind == Message
        && c.open.value.name == "")
  }

  /** The rest of the text. */
  method Flush(e: Emitter, inp: Input)
    requires e.Sound() && e.messageIndex.Some? && (e.client.Rejected? || e.InMessage())
    modifies e
    ensures e.Sound() && e.messageIndex == old(e.messageIndex) && e.reasoning == old(e.reasoning)
    ensures e.reasoningOpened == old(e.reasoningOpened) && e.nextIndex == old(e.nextIndex)
    ensures if old(e.client.Rejected?) then e.client.Rejected? else e.InMessage()
    ensures Grown(old(e.events), e.events, Tail(inp), [], [])
  {
    hide Received, Numbered, Deltas;
    if inp.streamContent {
      e.Say(inp.flushShown);
      e.Say(inp.held);
    } else {
      e.Say(inp.late);
    }
  }

  /** Everything after the last output. */
  method Finish(e: Emitter, inp: Input, ghost seen: seq<Chunk>)
    requires Coherent(e, seen) && e.native == inp.native
    modifies e
    ensures e.Sound() && e.events != [] && e.events[|e.events| - 1].body.Completed?
    ensures var thoughts := if inp.native then AllThinking(seen) else "";
      var clean := !inp.native || (ThinkingFirst(seen) && (inp.streamContent ==> inp.flushThinking == ""));
      e.client == if clean then Client(ReasoningItems(thoughts) + [Item(Message, "", inp.finalText)] + CallItems(inp.calls),
                                       None, Opened, true)
                  else Rejected
    ensures Grown(old(e.events), e.events, Tail(inp), [], Arguments(inp.calls))
  {
    hide Received, Numbered, Deltas, AllThinking, ThinkingFirst, HasContent, Shown, Thoughts, Grown, Arguments, Tail, CallItems, ReasoningItems;
    Settle(e, seen);
    ghost var before := ReasoningItems(e.reasoning);
    var index := e.messageIndex.value;
    ghost var settled := e.events;
    Flush(e, inp);
    ghost var flushed := e.events;
    CloseMessage(e, index, inp.finalText, before);
    ghost var closed := e.events;
    var reasoning := if inp.streamContent && inp.native then e.reasoning + inp.flushThinking else e.reasoning;
    var items := ReasoningItems(reasoning) + [Item(Message, "", inp.finalText)];
    Calls(e, inp.calls, e.nextIndex + 1, before + [Item(Message, "", inp.finalText)]);
    ghost var called := e.events;
    Listed(e.reasoning, inp, reasoning);
    e.Yield(Completed(items + CallItems(inp.calls)));
    GrowsThrough([old(e.events), settled, flushed, closed, called, e.events], Tail(inp), Arguments(inp.calls));
  }

  /** The completed response lists what was received if and only if the final flush held no thinking. */
  lemma Listed(sofar: string, inp: Input, reasoning: string)
    requires reasoning == if inp.streamContent && inp.native then sofar + inp.flushThinking else sofar
    ensures var message := [Item(Message, "", inp.finalText)];
      ReasoningItems(sofar) + message + CallItems(inp.calls) == ReasoningItems(reasoning) + message + CallItems(inp.calls)
      <==> !(inp.streamContent && inp.native) || inp.flushThinking == ""
  {
    hide ReasoningItems, CallItems;
    var rest := [Item(Message, "", inp.finalText)] + CallItems(inp.calls);
    if inp.streamContent && inp.native && inp.flushThinking != "" {
      assert |reasoning| == |sofar| + |inp.flushThinking|;
    } else {
      assert sofar + "" == sofar;
    }
    Differ(sofar, reasoning, rest);
    assert ReasoningItems(sofar) + [Item(Message, "", inp.finalText)] + CallItems(inp.calls) == ReasoningItems(sofar) + rest;
    assert ReasoningItems(reasoning) + [Item(Message, "", inp.finalText)] + CallItems(inp.calls) == ReasoningItems(reasoning) + rest;
  }

  lemma Differ(a: string, b: string, rest: seq<Item>)
    requires a != b ==> b != ""
    ensures ReasoningItems(a) + rest == ReasoningItems(b) + rest <==> a == b
  {
    if a != b {
      assert (ReasoningItems(b) + rest)[0] == Item(Reasoning, "", b);
      if a != "" {
        assert (ReasoningItems(a) + rest)[0] == Item(Reasoning, "", a);
      } else {
        assert |ReasoningItems(a) + rest| == |rest|;
      }
    }
  }

  method CloseMessage(e: Emitter, index: nat, text: string, ghost before: seq<Item>)
    requires e.Sound() && AtMessage(e.client, before) && (e.client.Client? ==> index == |before|)
    modifies e
    ensures e.Sound() && e.reasoning == old(e.reasoning) && e.nextIndex == old(e.nextIndex)
    ensures e.client == if old(e.client).Rejected? then Rejected
                        else Client(before + [Item(Message, "", text)], None, Opened, false)
    ensures Grown(old(e.events), e.events, [], [], [])
  {
    hide Received, Numbered, Deltas;
    e.Yield(TextDone(index, text));
    e.Yield(PartDone(index, text));
    e.Yield(ItemDone(index, Item(Message, "", text)));
  }

  method Calls(e: Emitter, calls: seq<Call>, start: nat, ghost before: seq<Item>)
    requires e.Sound() && (e.client.Rejected? || (e.client == Client(before, None, Opened, false) && start == |before|))
    modifies e
    ensures e.Sound() && e.reasoning == old(e.reasoning)
    ensures e.client == if old(e.client).Rejected? then Rejected else Client(before + CallItems(calls), None, Opened, false)
    ensures Grown(old(e.events), e.events, [], [], Arguments(calls))
  {
    var index := start;
    for i := 0 to |calls|
      invariant e.Sound() && e.reasoning == old(e.reasoning) && index == start + i
      invariant Grown(old(e.events), e.events, [], [], Arguments(calls[..i]))
      invariant e.client == if old(e.client).Rejected? then Rejected
                            else Client(before + CallItems(calls[..i]), None, Opened, false)
    {
      hide Received, Numbered, Deltas;
      hide Grown;
      ghost var was := e.events;
      OneCall(e, calls[i], index, before + CallItems(calls[..i]));
      index := index + 1;
      assert calls[..i + 1] == calls[..i] + [calls[i]];
      assert CallItems(calls[..i + 1]) == CallItems(calls[..i]) + [Item(FunctionCall, calls[i].name, calls[i].arguments)];
      assert before + CallItems(calls[..i]) + [Item(FunctionCall, calls[i].name, calls[i].arguments)]
          == before + CallItems(calls[..i + 1]);
      assert Arguments(calls[..i + 1]) == Arguments(calls[..i]) + [calls[i].arguments];
      GrowsOn(old(e.events), was, e.events, [], Arguments(calls[..i]), [], [calls[i].arguments]);
    }
    assert calls[..|calls|] == calls;
  }

  method OneCall(e: Emitter, call: Call, index: nat, ghost before: seq<Item>)
    requires e.Sound() && (e.client.Rejected? || (e.client == Client(before, None, Opened, false) && index == |before|))
    modifies e
    ensures e.Sound() && e.reasoning == old(e.reasoning)
    ensures e.client == if old(e.client).Rejected? then Rejected
                        else Client(before + [Item(FunctionCall, call.name, call.arguments)], None, Opened, false)
    ensures Grown(old(e.events), e.events, [], [], [call.arguments])
  {
    hide Received, Numbered, Deltas;
    assert "" + call.arguments == call.arguments;
    e.Yield(ItemAdded(index, FunctionCall, call.name));
    e.Yield(Delta(index, FunctionCall, call.arguments));
    e.Yield(TextDone(index, call.arguments));
    e.Yield(ItemDone(index, Item(FunctionCall, call.name, call.arguments)));
  }

  /** The stream of a run. Its sequence numbers are always 1, 2, 3, ...; and a strict client accepts
      all of it if and only if, with native reasoning, no thinking follows content and none is left
      for the final flush. A clean complete run delivers the expected items. */
  method Stream(inp: Input) returns (events: seq<Event>)
    ensures Numbered(events) && events != []
    ensures inp.broken ==> events[|events| - 1].body.Failed?
    ensures !inp.broken ==> events[|events| - 1].body.Completed?
    ensures Accepted(events) <==> Tidy(inp)
    ensures Accepted(events) && !inp.broken ==> Delivered(events) == Response(inp)
    ensures Streamed(events, inp)
  {
    hide Received, Numbered, Deltas, Receive, AllThinking, ThinkingFirst, Shown, Thoughts, Grown, Arguments, Tail;
    var e := new Emitter(inp.native);
    Welcome(e);
    if inp.streamContent { Chunks(e, inp.chunks); }
    ghost var seen := if inp.streamContent then inp.chunks else [];
    ghost var streamed := e.events;
    NoThinking();
    if inp.broken {
      Break(e, seen);
    } else {
      Finish(e, inp, seen);
    }
    events := e.events;
    AllStreamed(streamed, events, inp);
  }

  lemma AllStreamed(es: seq<Event>, more: seq<Event>, inp: Input)
    requires Deltas(es, Message) == if inp.streamContent then Shown(inp.chunks) else []
    requires Deltas(es, Reasoning) == if inp.native && inp.streamContent then Thoughts(inp.chunks) else []
    requires Deltas(es, FunctionCall) == []
    requires if inp.broken then Grown(es, more, [], [], []) else Grown(es, more, Tail(inp), [], Arguments(inp.calls))
    ensures Streamed(more, inp)
  {
    hide Deltas, Shown, Thoughts, Tail, Arguments;
  }

  lemma NoThinking()
    ensures AllThinking([]) == "" && ThinkingFirst([]) && Shown([]) == [] && Thoughts([]) == []
  {
  }

  method Break(e: Emitter, ghost seen: seq<Chunk>)
    requires Coherent(e, seen)
    modifies e
    ensures e.Sound() && e.events != [] && e.events[|e.events| - 1].body == Failed
    ensures e.client.Client? <==> !e.native || ThinkingFirst(seen)
    ensures e.client.Client? ==> e.client.ended
    ensures Grown(old(e.events), e.events, [], [], [])
  {
    hide Received, Numbered, Deltas, AllThinking, ThinkingFirst, HasContent, Shown, Thoughts;
    e.Yield(Failed);
  }

  /** The items of a clean run: reasoning if any was streamed, the message, then the calls. */
  function Response(inp: Input): seq<Item> {
    (if inp.native && inp.streamContent && AllThinking(inp.chunks) != ""
     then [Item(Reasoning, "", AllThinking(inp.chunks))] else [])
    + [Item(Message, "", inp.finalText)] + CallItems(inp.calls)
  }

  function CallItems(calls: seq<Call>): seq<Item> {
    seq(|calls|, i requires 0 <= i < |calls| => Item(FunctionCall, calls[i].name, calls[i].arguments))
  }
}
