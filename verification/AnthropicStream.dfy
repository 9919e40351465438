/** The Anthropic Messages event stream (omlx/server.py, stream_anthropic_messages). The deltas are
    the results of the thinking parser and the tool-call filters, taken as arbitrary input. */
module AnthropicStream {
  import opened Common

  datatype Kind = Thinking | Text | ToolUse

  datatype Event =
    | MessageStart
    | BlockStart(index: nat, kind: Kind)
    | BlockDelta(index: nat, of: Kind, payload: string)
    | BlockStop(index: nat)
    | MessageDelta(toolUse: bool)
    | MessageStop

  /** What one engine output contributes, after parsing and filtering; empty means nothing. */
  datatype Chunk = Chunk(thinking: string, content: string, finished: bool)

  /** What the parsers still hold when the outputs end. */
  datatype Flush = Flush(thinking: string, heldThinking: string, content: string, held: string)

  // ---------- what the client should see ----------

  datatype Delta = Delta(kind: Kind, payload: string)

  datatype Block = Block(kind: Kind, payload: string)

  /** str.strip() removes exactly these characters. */
  predicate IsSpace(c: char) {
    || '\t' <= c <= '\r' || '\U{1c}' <= c <= ' ' || c == '\U{85}' || c == '\U{a0}' || c == '\U{1680}'
    || '\U{2000}' <= c <= '\U{200a}' || c == '\U{2028}' || c == '\U{2029}' || c == '\U{202f}'
    || c == '\U{205f}' || c == '\U{3000}'
  }

  predicate Blank(s: string) { forall i :: 0 <= i < |s| ==> IsSpace(s[i]) }

  /** str.strip(). */
  function Strip(s: string): string {
    if s != "" && IsSpace(s[0]) then Strip(s[1..])
    else if s != "" && IsSpace(s[|s| - 1]) then Strip(s[..|s| - 1])
    else s
  }

  lemma {:induction false} BlankIsStripped(s: string)
    ensures Blank(s) <==> Strip(s) == ""
  {
    hide IsSpace;
    if s != "" && IsSpace(s[0]) {
      BlankIsStripped(s[1..]);
      assert s == [s[0]] + s[1..];
    } else if s != "" && IsSpace(s[|s| - 1]) {
      BlankIsStripped(s[..|s| - 1]);
    }
  }

  predicate EndsInText(ds: seq<Delta>) { ds != [] && ds[|ds| - 1].kind == Text }

  function Adding(ds: seq<Delta>, kind: Kind, payload: string): seq<Delta> {
    if payload == "" then ds else ds + [Delta(kind, payload)]
  }

  /** The deltas of one output; with tools, blank text outside a text block is dropped. */
  function AddChunk(ds: seq<Delta>, c: Chunk, tools: bool): seq<Delta> {
    var ds' := Adding(ds, Thinking, c.thinking);
    if tools && !EndsInText(ds') && Blank(c.content) then ds' else Adding(ds', Text, c.content)
  }

  /** All outputs up to and including the first finished one. */
  function Accepted(cs: seq<Chunk>, ds: seq<Delta>, tools: bool): seq<Delta> {
    if cs == [] then ds
    else if cs[0].finished then AddChunk(ds, cs[0], tools)
    else Accepted(cs[1..], AddChunk(ds, cs[0], tools), tools)
  }

  function Flushed(ds: seq<Delta>, f: Flush): seq<Delta> {
    Adding(Adding(Adding(Adding(ds, Thinking, f.thinking), Thinking, f.heldThinking), Text, f.content), Text, f.held)
  }

  /** Consecutive deltas of one kind form one block. */
  function Coalesced(ds: seq<Delta>): seq<Block> {
    if ds == [] then []
    else
      var front, last := Coalesced(ds[..|ds| - 1]), ds[|ds| - 1];
      if front != [] && front[|front| - 1].kind == last.kind
      then front[..|front| - 1] + [Block(last.kind, front[|front| - 1].payload + last.payload)]
      else front + [Block(last.kind, last.payload)]
  }

  function ToolBlocks(arguments: seq<string>): seq<Block> {
    seq(|arguments|, i requires 0 <= i < |arguments| => Block(ToolUse, arguments[i]))
  }

  /** The message the stream stands for. */
  function Message(cs: seq<Chunk>, f: Flush, tools: bool, calls: seq<string>): seq<Block> {
    var body := Coalesced(Flushed(Accepted(cs, [], tools), f)) + ToolBlocks(calls);
    if body == [] then [Block(Text, "")] else body
  }

  // ---------- a strict client ----------

  /** Blocks received so far, and the one being received. */
  datatype Client = Client(done: seq<Block>, open: Option<Block>) | Rejected

  /** Accepts only well-bracketed blocks with indices 0, 1, 2, ... and deltas of the open kind. */
  function Receive(c: Client, e: Event): Client {
    if c.Rejected? then Rejected
    else match e
      case BlockStart(i, kind) =>
        if c.open.None? && i == |c.done| then c.(open := Some(Block(kind, ""))) else Rejected
      case BlockDelta(i, kind, payload) =>
        if c.open.Some? && i == |c.done| && kind == c.open.value.kind
        then c.(open := Some(Block(kind, c.open.value.payload + payload))) else Rejected
      case BlockStop(i) =>
        if c.open.Some? && i == |c.done| then Client(c.done + [c.open.value], None) else Rejected
      case _ => Rejected
  }

  function Received(es: seq<Event>): Client {
    if es == [] then Client([], None) else Receive(Received(es[..|es| - 1]), es[|es| - 1])
  }

  lemma ReceiveOne(es: seq<Event>, e: Event)
    ensures Received(es + [e]) == Receive(Received(es), e)
  {
    assert (es + [e])[..|es|] == es;
  }

  // ---------- the emitter ----------

  /** All blocks a client knows, finished or not. */
  function Blocks(c: Client): seq<Block>
    requires c.Client?
  {
    if c.open.Some? then c.done + [c.open.value] else c.done
  }

  /** The client knows exactly these deltas, and the last of them is in the open block. */
  ghost predicate Knows(c: Client, ds: seq<Delta>) {
    && c.Client? && Blocks(c) == Coalesced(ds)
    && (c.open.None? ==> c.done == [] && ds == [])
    && (c.open.Some? ==> ds != [] && ds[|ds| - 1].kind == c.open.value.kind)
  }

  /** The client after a delta: it joins the open block of its kind, or starts the next block. */
  function Hearing(c: Client, d: Delta): Client
    requires c.Client?
  {
    if c.open.Some? && c.open.value.kind == d.kind
    then Client(c.done, Some(Block(d.kind, c.open.value.payload + d.payload)))
    else Client(Blocks(c), Some(Block(d.kind, d.payload)))
  }

  lemma KnowsMore(c: Client, ds: seq<Delta>, d: Delta)
    requires Knows(c, ds)
    ensures Knows(Hearing(c, d), ds + [d])
  {
    CoalesceOne(ds, d);
    hide Coalesced;
    assert c.open.Some? ==> Blocks(c)[..|c.done|] == c.done;
  }

  /** Coalescing one more delta. */
  lemma CoalesceOne(ds: seq<Delta>, d: Delta)
    ensures var front := Coalesced(ds);
      Coalesced(ds + [d]) ==
        if front != [] && front[|front| - 1].kind == d.kind
        then front[..|front| - 1] + [Block(d.kind, front[|front| - 1].payload + d.payload)]
        else front + [Block(d.kind, d.payload)]
    ensures Coalesced(ds + [d]) != []
  {
    assert (ds + [d])[..|ds|] == ds;
  }

  /** The generator's variables and the events it has yielded. */
  class Emitter {
    var blockIndex: nat
    var thinkingStarted: bool
    var textStarted: bool
    var events: seq<Event>
    /** What a client of the events knows, and the deltas shown to it. */
    ghost var client: Client
    ghost var shown: seq<Delta>

    constructor ()
      ensures Valid() && events == [] && shown == []
    {
      blockIndex, thinkingStarted, textStarted, events := 0, false, false, [];
      client, shown := Client([], None), [];
    }

    /** The block the flags say is open is the one the client is receiving. */
    ghost predicate Synced()
      reads this
    {
      && client == Received(events) && client.Client? && blockIndex == |client.done|
      && (client.open.None? <==> !thinkingStarted && !textStarted)
      && (client.open.Some? ==> client.open.value.kind == if textStarted then Text else Thinking)
      && !(thinkingStarted && textStarted)
    }

    ghost predicate Valid()
      reads this
    {
      Synced() && Knows(client, shown)
    }

    method Yield(e: Event)
      requires client == Received(events)
      modifies this`events, this`client
      ensures events == old(events) + [e] && client == Receive(old(client), e) == Received(events)
    {
      ReceiveOne(events, e);
      events := events + [e];
      client := Receive(client, e);
    }

    /** Makes sure a block of this kind is open, closing one of the other kind. */
    method Open(kind: Kind)
      requires Synced() && (kind == Thinking || kind == Text) && (client.open.None? ==> client.done == [])
      modifies this
      ensures Synced() && client.open.Some? && client.open.value.kind == kind && shown == old(shown)
      ensures client == if old(client.open.Some?) && old(client.open.value.kind) == kind then old(client)
                        else Client(Blocks(old(client)), Some(Block(kind, "")))
    {
      hide Received;
      if kind == Thinking {
        if textStarted {
          Yield(BlockStop(blockIndex));
          blockIndex := blockIndex + 1;
          textStarted := false;
        }
        if !thinkingStarted {
          Yield(BlockStart(blockIndex, Thinking));
          thinkingStarted := true;
        }
      } else {
        if thinkingStarted && !textStarted {
          Yield(BlockStop(blockIndex));
          blockIndex := blockIndex + 1;
          thinkingStarted := false;
        }
        if !textStarted {
          Yield(BlockStart(blockIndex, Text));
          textStarted := true;
        }
      }
    }

    /** One more delta for the open block. */
    method Deliver(payload: string)
      requires Synced() && client.open.Some?
      modifies this`events, this`client
      ensures Synced()
      ensures client == Client(old(client).done, Some(Block(old(client).open.value.kind, old(client).open.value.payload + payload)))
    {
      hide Received;
      Yield(BlockDelta(blockIndex, if textStarted then Text else Thinking, payload));
    }

    method Show(kind: Kind, payload: string)
      requires Valid() && (kind == Thinking || kind == Text)
      modifies this
      ensures Valid() && shown == Adding(old(shown), kind, payload)
    {
      if payload == "" { return; }
      Fresh(client, shown);
      KnowsMore(client, shown, Delta(kind, payload));
      hide Received, Receive, Knows, Coalesced, Blocks, Hearing;
      ghost var before := client;
      Open(kind);
      OpenedAndHeard(before, client, kind, payload);
      Deliver(payload);
      shown := shown + [Delta(kind, payload)];
    }
  }

  lemma OpenedAndHeard(c: Client, ready: Client, kind: Kind, payload: string)
    requires c.Client? && (c.open.None? ==> c.done == [])
    requires ready == if c.open.Some? && c.open.value.kind == kind then c else Client(Blocks(c), Some(Block(kind, "")))
    ensures Hearing(c, Delta(kind, payload)) ==
            Client(ready.done, Some(Block(ready.open.value.kind, ready.open.value.payload + payload)))
  {
    assert "" + payload == payload;
  }

  lemma Fresh(c: Client, ds: seq<Delta>)
    requires Knows(c, ds)
    ensures c.Client? && (c.open.None? ==> c.done == [])
  {
  }

  /** The whole stream. It is framed by message events, and between them a strict client receives
      exactly the message: one block for each maximal run of deltas of one kind, then one per tool
      call, or a single empty text block when there is nothing else. If the engine yields no output
      at all, the generator fails at its closing events, which read the last output. */
  method Stream(cs: seq<Chunk>, f: Flush, tools: bool, calls: seq<string>) returns (events: seq<Event>, failed: bool)
    ensures failed <==> cs == []
    ensures |events| >= 1 && events[0] == MessageStart
    ensures !failed ==> |events| >= 3 && events[|events| - 2..] == [MessageDelta(calls != []), MessageStop]
    ensures Received(events[1..|events| - if failed then 0 else 2]) == Client(Message(cs, f, tools, calls), None)
  {
    hide Received, Accepted, Coalesced, Flushed;
    var e := new Emitter();
    Body(e, cs, f, tools);
    var body := Closing(e, calls);
    events := [MessageStart] + body;
    if cs == [] {
      assert events[1..|events|] == body;
      return events, true;
    }
    events := events + [MessageDelta(calls != []), MessageStop];
    failed := false;
    assert events[1..|events| - 2] == body;
  }

  method Body(e: Emitter, cs: seq<Chunk>, f: Flush, tools: bool)
    requires e.Valid() && e.shown == []
    modifies e
    ensures e.Valid() && e.shown == Flushed(Accepted(cs, [], tools), f)
  {
    hide Received, Coalesced, AddChunk, Knows, Blocks;
    var i, stop := 0, false;
    while i < |cs| && !stop
      invariant 0 <= i <= |cs| && e.Valid()
      invariant stop ==> e.shown == Accepted(cs, [], tools)
      invariant !stop ==> Accepted(cs[i..], e.shown, tools) == Accepted(cs, [], tools)
    {
      assert cs[i..][1..] == cs[i + 1..];
      ShowChunk(e, cs[i], tools);
      stop := cs[i].finished;
      i := i + 1;
    }
    e.Show(Thinking, f.thinking);
    e.Show(Thinking, f.heldThinking);
    e.Show(Text, f.content);
    e.Show(Text, f.held);
  }

  method ShowChunk(e: Emitter, c: Chunk, tools: bool)
    requires e.Valid()
    modifies e
    ensures e.Valid() && e.shown == AddChunk(old(e.shown), c, tools)
  {
    hide Received, Coalesced, Blank;
    e.Show(Thinking, c.thinking);
    var drop := !e.textStarted && tools && Blank(c.content);
    if !drop { e.Show(Text, c.content); }
  }

  /** Closes the open block, or emits an empty one, and appends the tool calls. */
  method Closing(e: Emitter, calls: seq<string>) returns (events: seq<Event>)
    requires e.Valid()
    modifies e
    ensures var body := Coalesced(old(e.shown)) + ToolBlocks(calls);
      Received(events) == Client(if body == [] then [Block(Text, "")] else body, None)
  {
    hide Coalesced, Received;
    ghost var blocks := Coalesced(e.shown);
    if e.thinkingStarted && !e.textStarted { e.Yield(BlockStop(e.blockIndex)); }
    if e.textStarted {
      e.Yield(BlockStop(e.blockIndex));
    } else if !e.thinkingStarted && calls == [] {
      e.Yield(BlockStart(e.blockIndex, Text));
      e.Yield(BlockStop(e.blockIndex));
      return e.events;
    }
    assert e.client == Client(blocks, None);
    var index := if !e.textStarted && !e.thinkingStarted then 0 else e.blockIndex + 1;
    for i := 0 to |calls|
      invariant index == |blocks| + i
      invariant e.client == Received(e.events) == Client(blocks + ToolBlocks(calls[..i]), None)
    {
      e.Yield(BlockStart(index, ToolUse));
      e.Yield(BlockDelta(index, ToolUse, calls[i]));
      assert "" + calls[i] == calls[i];
      e.Yield(BlockStop(index));
      index := index + 1;
      assert calls[..i + 1] == calls[..i] + [calls[i]];
      assert ToolBlocks(calls[..i + 1]) == ToolBlocks(calls[..i]) + [Block(ToolUse, calls[i])];
    }
    assert calls[..|calls|] == calls;
    events := e.events;
  }
}
