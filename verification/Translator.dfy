/** The stream translator itself: an object fed with chunks, answering with frames. */
module Translator {
  import opened Text
  import opened Protocol
  import opened TranslatorSpec
  import Sse

  class AnthropicToResponses {
    const decode: Decoder
    var buffer: string
    var id: string
    var model: string
    var phase: Phase
    var sequence: nat
    var usage: Counters
    var next: nat
    var msg: TextSlot
    var thinking: ThinkingSlot
    var cmp: CompactionSlot
    var tools: Tools
    var indexes: map<string, nat>
    var items: seq<Item>
    var stopReason: Option<string>

    /** The fields as one value, all but the undecoded buffer. */
    function View(): State
      reads this
    {
      State(id, model, phase, sequence, usage, next, msg, thinking, cmp, tools, indexes, items, stopReason)
    }

    constructor (decode: Decoder, id: string, model: string)
      ensures this.decode == decode && buffer == ""
      ensures View() == Fresh(id, model)
    {
      this.decode := decode;
      this.id, this.model := id, model;
      buffer := "";
      phase := Phase(false, false, false, None, None, false);
      sequence, usage, next := 0, Counters(0, 0, 0, 0), 0;
      msg, thinking, cmp := TextSlot(None, None, ""), ThinkingSlot(None, ""), CompactionSlot(None, None, None, "");
      tools, indexes, items, stopReason := Tools(0, [], [], map[]), map[], [], None;
    }

    // -------------------------------------------------------------- small steps

    method Emit(body: Body) returns (frame: Frame)
      modifies this`sequence
      ensures frame == Event(old(sequence), body) && sequence == old(sequence) + 1
    {
      frame := Event(sequence, body);
      sequence := sequence + 1;
    }

    /** Emit several bodies one after the other. */
    method Say(bodies: seq<Body>) returns (out: seq<Frame>)
      modifies this`sequence
      ensures Reply(View(), out) == Send(old(View()), bodies)
    {
      out := [];
      for i := 0 to |bodies|
        invariant sequence == old(sequence) + i
        invariant |out| == i
        invariant forall k :: 0 <= k < i ==> out[k] == Event(old(sequence) + k, bodies[k])
      {
        var frame := Emit(bodies[i]);
        out := out + [frame];
      }
      assert out == Frames(old(sequence), bodies);
    }

    method AllocateOutputIndex() returns (index: nat)
      modifies this`next
      ensures index == old(next) && next == index + 1
    {
      index := next;
      next := next + 1;
    }

    method EnsureReasoningOutputIndex() returns (index: nat)
      modifies this`next, this`thinking
      ensures thinking == old(thinking).(index := Some(index))
      ensures index == old(thinking).index.GetOr(old(next))
      ensures next == if old(thinking).index.Some? then old(next) else index + 1
    {
      if thinking.index.Some? {
        return thinking.index.value;
      }
      index := AllocateOutputIndex();
      thinking := thinking.(index := Some(index));
    }

    method Update(itemId: string, change: Item -> Item)
      modifies this`items
      ensures items == Replace(old(items), itemId, change)
    {
      var k := FindItem(items, itemId);
      if k.Some? {
        items := items[k.value := change(items[k.value])];
      }
    }

    method Ingest(reported: Usage)
      modifies this`usage
      ensures usage == IngestUsage(old(usage), Some(reported))
    {
      if reported.input.Some? { usage := usage.(input := reported.input.value); }
      if reported.output.Some? { usage := usage.(output := reported.output.value); }
      if reported.cacheRead.Some? { usage := usage.(cached := reported.cacheRead.value); }
      if reported.cacheCreation.Some? { usage := usage.(cacheCreation := reported.cacheCreation.value); }
    }

    // -------------------------------------------------------------- deltas

    method OnText(piece: string) returns (out: seq<Frame>)
      modifies this
      ensures Reply(View(), out) == TextDelta(old(View()), piece)
      ensures buffer == old(buffer)
    {
      msg := msg.(text := msg.text + piece);
      if msg.itemId.None? {
        var itemId := "msg_" + id;
        var index := AllocateOutputIndex();
        msg := msg.(itemId := Some(itemId), index := Some(index));
        out := Say([ItemAdded(index, Message(itemId, InProgress, None)),
                    PartAdded(itemId, index),
                    OutputTextDelta(itemId, index, piece)]);
      } else {
        out := Say([OutputTextDelta(msg.itemId.value, msg.index.GetOr(0), piece)]);
      }
    }

    method OnThinking(piece: string) returns (out: seq<Frame>)
      modifies this
      ensures Reply(View(), out) == ThinkingDelta(old(View()), piece)
      ensures buffer == old(buffer)
    {
      thinking := thinking.(text := thinking.text + piece);
      var index := EnsureReasoningOutputIndex();
      out := Say([ReasoningDelta("rs_" + id, index, piece)]);
    }

    method OnCompactionText(piece: string) returns (out: seq<Frame>)
      modifies this
      ensures Reply(View(), out) == CompactionDelta(old(View()), piece)
      ensures buffer == old(buffer)
    {
      if piece == "" || cmp.itemId.None? {
        return [];
      }
      var itemId := cmp.itemId.value;
      var joined := cmp.text + piece;
      cmp := cmp.(text := joined);
      Update(itemId, item => WithText(item, joined));
      out := Say([OutputTextDelta(itemId, cmp.index.GetOr(0), piece)]);
    }

    method OnArguments(block: Option<nat>, partial: string) returns (out: seq<Frame>)
      modifies this
      ensures Reply(View(), out) == ArgumentsPiece(old(View()), block, partial)
      ensures buffer == old(buffer)
    {
      var ordinal := ToolOrdinal(tools, block);
      if ordinal < |tools.itemIds| {
        Update(tools.itemIds[ordinal], item => WithMoreArguments(item, partial));
      }
      out := Say([ArgumentsDelta(ToolItemId(tools, ordinal), ToolOutputIndex(tools, ordinal), partial)]);
    }

    method OnDelta(index: Option<nat>, delta: Delta) returns (out: seq<Frame>)
      modifies this
      ensures Reply(View(), out) == Piece(old(View()), index, delta)
      ensures buffer == old(buffer)
    {
      match delta {
        case ThinkingPiece(Some(piece)) => out := OnThinking(piece);
        case CompactionPiece(Some(piece)) => out := OnCompactionText(piece);
        case TextPiece(Some(piece)) => out := OnText(piece);
        case InputJsonPiece(Some(partial)) => out := OnArguments(index, partial);
        case _ => out := [];
      }
    }

    // -------------------------------------------------------------- block starts

    method OnCompactionOpen(index: nat) returns (out: seq<Frame>)
      modifies this
      ensures Reply(View(), out) == OpenCompaction(old(View()), index)
      ensures buffer == old(buffer)
    {
      var itemId := "msg_cmp_" + id + "_" + Digits(index);
      var output := AllocateOutputIndex();
      indexes := indexes[itemId := output];
      cmp := CompactionSlot(Some(itemId), Some(output), Some(index), "");
      var item := Message(itemId, InProgress, None);
      items := items + [item];
      out := Say([ItemAdded(output, item), PartAdded(itemId, output)]);
    }

    method OnCompactionStart(index: nat, content: Option<string>) returns (out: seq<Frame>)
      modifies this
      ensures Reply(View(), out) == StartCompaction(old(View()), index, content)
      ensures buffer == old(buffer)
    {
      out := OnCompactionOpen(index);
      if content.Some? {
        var more := OnCompactionText(content.value);
        out := out + more;
      }
    }

    method RegisterTool(index: Option<nat>, itemId: string, output: nat)
      modifies this`tools
      ensures tools == AddTool(old(tools), index, itemId, output)
    {
      if index.Some? {
        tools := tools.(ordinals := tools.ordinals[index.value := tools.count]);
      }
      tools := tools.(count := tools.count + 1, itemIds := tools.itemIds + [itemId],
                      indexes := tools.indexes + [output]);
    }

    method OnToolOpen(index: Option<nat>, callId: string, name: string) returns (out: seq<Frame>)
      modifies this
      ensures Reply(View(), out) == OpenTool(old(View()), index, callId, name)
      ensures buffer == old(buffer)
    {
      hide Send;
      var itemId := "fc_" + callId;
      var output := AllocateOutputIndex();
      RegisterTool(index, itemId, output);
      indexes := indexes[itemId := output];
      var item := FunctionCall(itemId, InProgress, callId, name, "");
      items := items + [item];
      out := Say([ItemAdded(output, item)]);
    }

    method OnInitialArguments(itemId: string, output: nat, initial: string) returns (out: seq<Frame>)
      modifies this
      ensures Reply(View(), out) == FirstArguments(old(View()), itemId, output, initial)
      ensures buffer == old(buffer)
    {
      out := [];
      if initial != "" {
        Update(itemId, stored => WithArguments(stored, initial));
        out := Say([ArgumentsDelta(itemId, output, initial)]);
      }
    }

    method OnToolStart(index: Option<nat>, blockId: Option<string>, name: string, input: Option<string>)
        returns (out: seq<Frame>)
      modifies this
      ensures Reply(View(), out) == StartTool(old(View()), index, blockId, name, input)
      ensures buffer == old(buffer)
    {
      var callId := CallId(View(), blockId);
      var output := next;
      out := OnToolOpen(index, callId, name);
      var more := OnInitialArguments("fc_" + callId, output, InitialArguments(input));
      out := out + more;
    }

    method OnBlockStart(index: Option<nat>, block: Block) returns (out: seq<Frame>)
      modifies this
      ensures Reply(View(), out) == Start(old(View()), index, block)
      ensures buffer == old(buffer)
    {
      match block {
        case CompactionBlock(content) => out := OnCompactionStart(index.GetOr(0), content);
        case ToolUse(blockId, name, input) => out := OnToolStart(index, blockId, name, input);
        case OtherBlock => out := [];
      }
    }

    // -------------------------------------------------------------- closing

    method CloseCompactionItem() returns (out: seq<Frame>)
      modifies this
      ensures Reply(View(), out) == CloseCompaction(old(View()))
      ensures buffer == old(buffer)
    {
      if cmp.itemId.None? {
        return [];
      }
      var itemId, output, text := cmp.itemId.value, cmp.index.GetOr(0), cmp.text;
      var found := FindItem(items, itemId);
      if found.None? || IsDone(items[found.value]) {
        return [];
      }
      var item := WithText(AsCompleted(items[found.value]), text);
      items := items[found.value := item];
      out := Say([OutputTextDone(itemId, output, text), PartDone(itemId, output, text), ItemDone(output, item)]);
    }

    method CloseTextItem() returns (out: seq<Frame>)
      modifies this
      ensures Reply(View(), out) == CloseText(old(View()))
      ensures buffer == old(buffer)
    {
      out := [];
      if msg.itemId.Some? {
        var itemId, output, text := msg.itemId.value, msg.index.GetOr(0), msg.text;
        out := Say([OutputTextDone(itemId, output, text),
                    PartDone(itemId, output, text),
                    ItemDone(output, Message(itemId, Status.Completed, Some(text)))]);
      }
    }

    method CloseOneItem(item: Item, position: nat) returns (out: seq<Frame>)
      modifies this
      ensures Reply(View(), out) == CloseItem(old(View()), item, position)
      ensures buffer == old(buffer)
    {
      if IsDone(item) {
        return [];
      }
      if cmp.itemId == Some(item.id) {
        out := CloseCompactionItem();
        return;
      }
      var output := OpenItemIndex(View(), item, position);
      if item.FunctionCall? {
        out := Say([ArgumentsDone(item.id, output, item.arguments), ItemDone(output, AsCompleted(item))]);
      } else {
        out := Say([ItemDone(output, AsCompleted(item))]);
      }
    }

    method CloseStoredItems() returns (out: seq<Frame>)
      modifies this
      ensures Reply(View(), out) == CloseItemsFrom(old(View()), old(items), 0)
      ensures buffer == old(buffer)
    {
      hide CloseItem;
      var items := items;
      out := [];
      for position := 0 to |items|
        invariant buffer == old(buffer)
        invariant CloseItemsFrom(View(), items, position).state == CloseItemsFrom(old(View()), items, 0).state
        invariant out + CloseItemsFrom(View(), items, position).out == CloseItemsFrom(old(View()), items, 0).out
      {
        var more := CloseOneItem(items[position], position);
        out := out + more;
      }
    }

    method CloseItems() returns (out: seq<Frame>)
      modifies this
      ensures Reply(View(), out) == CloseOpenItems(old(View()))
      ensures buffer == old(buffer)
    {
      var first := CloseTextItem();
      var rest := CloseStoredItems();
      out := first + rest;
    }

    // -------------------------------------------------------------- the terminal object

    method FinalItems() returns (output: seq<Item>)
      ensures output == FinalOutput(View())
    {
      ghost var st := View();
      var entries: seq<Entry> := [];
      if thinking.text != "" {
        entries := entries + [Entry(thinking.index.GetOr(0), 0, Reasoning("rs_" + id, thinking.text))];
      }
      assert entries == ReasoningEntries(st);
      if msg.itemId.Some? {
        entries := entries
          + [Entry(msg.index.GetOr(0), |entries|, Message(msg.itemId.value, Status.Completed, Some(msg.text)))];
      }
      var tieBreaker := |entries|;
      assert entries + ItemEntries(st, 0, tieBreaker) == Entries(st);
      var view := View();
      for index := 0 to |items|
        invariant entries + ItemEntries(st, index, tieBreaker + index) == Entries(st)
      {
        var item := items[index];
        var entry := Entry(ItemIndex(view, item, index), tieBreaker + index, AsCompleted(item));
        assert entries + ([entry] + ItemEntries(st, index + 1, tieBreaker + index + 1))
            == entries + [entry] + ItemEntries(st, index + 1, tieBreaker + index + 1);
        entries := entries + [entry];
      }
      assert entries + [] == entries;
      output := ItemsOf(Sorted(entries));
    }

    // -------------------------------------------------------------- ends of the stream

    method EmitLast(body: Body) returns (out: seq<Frame>)
      modifies this`sequence
      ensures Reply(View(), out) == Finally(old(View()), body)
    {
      out := Say([body]);
      out := out + [DoneMark];
    }

    method OnComplete() returns (out: seq<Frame>)
      modifies this
      ensures Reply(View(), out) == Complete(old(View()))
      ensures buffer == old(buffer)
    {
      if phase.finished || phase.failed {
        return [];
      }
      phase := phase.(finished := true);
      out := CloseItems();
      var output := FinalItems();
      var last;
      if stopReason == Some("max_tokens") {
        last := EmitLast(IncompleteBody(View().Base(IncompleteResponse, output)));
      } else {
        last := EmitLast(CompletedBody(View().Base(CompletedResponse, output)));
      }
      out := out + last;
      CloseKeepsStop(old(View()).(phase := old(View()).phase.(finished := true)));
    }

    /** Announce the response, unless that has happened. */
    method Begin() returns (out: seq<Frame>)
      modifies this`sequence, this`phase
      ensures Reply(View(), out) == Announce(old(View()))
    {
      out := [];
      if !phase.started {
        phase := phase.(started := true);
        out := Say([CreatedBody(View().Base(RunningResponse, []))]);
      }
    }

    method MarkFailed(kind: string, message: string)
      modifies this`phase
      ensures phase == Phase(old(phase).started, true, true, Some(kind), Some(message), old(phase).sawKeepalive)
    {
      phase := phase.(failedKind := Some(kind), failedMessage := Some(message));
      phase := phase.(failed := true, finished := true);
    }

    method OnFail(kind: string, message: string) returns (out: seq<Frame>)
      modifies this
      ensures Reply(View(), out) == FailWith(old(View()), kind, message)
      ensures buffer == old(buffer)
    {
      if phase.finished || phase.failed {
        return [];
      }
      out := Begin();
      MarkFailed(kind, message);
      var output := FinalItems();
      var last := EmitLast(FailedBody(View().Base(FailedResponse, output), phase.failedKind, message));
      out := out + last;
    }

    method Failure(message: string) returns (out: seq<Frame>)
      modifies this
      ensures Reply(View(), out) == Fail(old(View()), message)
      ensures buffer == old(buffer)
    {
      out := OnFail("api_error", message);
    }

    // -------------------------------------------------------------- one event

    method OnMessageStart(model: Option<string>, usage: Option<Usage>) returns (out: seq<Frame>)
      modifies this
      ensures Reply(View(), out) == OnStart(old(View()), model, usage)
      ensures buffer == old(buffer)
    {
      if model.Some? {
        this.model := model.value;
      }
      if usage.Some? {
        Ingest(usage.value);
      }
      phase := phase.(started := true);
      out := Say([CreatedBody(View().Base(RunningResponse, []))]);
    }

    method OnKeepalive() returns (out: seq<Frame>)
      modifies this
      ensures Reply(View(), out) == OnPing(old(View()))
      ensures buffer == old(buffer)
    {
      phase := phase.(sawKeepalive := true);
      out := Begin();
      var beat := Say([InProgressBody(View().Base(RunningResponse, items))]);
      out := out + beat;
    }

    method OnEvent(event: Upstream) returns (out: seq<Frame>)
      modifies this
      ensures Reply(View(), out) == Step(old(View()), event)
      ensures buffer == old(buffer)
    {
      hide Start, FailWith, Complete, Piece, OnStart, OnPing, CloseCompaction;
      if phase.finished || phase.failed {
        return [];
      }
      out := [];
      match event {
        case MessageStart(model, usage) => out := OnMessageStart(model, usage);
        case BlockDelta(index, delta) => out := OnDelta(index, delta);
        case BlockStart(index, block) => out := OnBlockStart(index, block);
        case MessageDelta(reason, usage) =>
          if reason.Some? && reason.value != "" {
            stopReason := reason;
          }
          if usage.Some? {
            Ingest(usage.value);
          }
        case BlockStop(index) =>
          if cmp.active == Some(index.GetOr(USIZE_MAX)) {
            cmp := cmp.(active := None);
            out := CloseCompactionItem();
          }
        case MessageStop => out := OnComplete();
        case ErrorEvent(kind, message) => out := OnFail(kind.GetOr("api_error"), message.GetOr("upstream error"));
        case Ping => out := OnKeepalive();
        case OtherEvent =>
      }
    }

    method Render(event: Sse.SseEvent) returns (out: seq<Frame>)
      modifies this
      ensures Reply(View(), out) == RenderEvent(decode, old(View()), event)
      ensures buffer == old(buffer)
    {
      if phase.finished || phase.failed {
        return [];
      }
      match decode(event.data) {
        case None => out := [];
        case Some(upstream) => out := OnEvent(upstream);
      }
    }

    method RenderText(ready: string) returns (out: seq<Frame>)
      modifies this
      ensures Reply(View(), out) == RenderAll(decode, old(View()), Sse.Parse(ready))
      ensures buffer == old(buffer)
    {
      hide RenderEvent;
      var events := Sse.ParseSseEvents(ready);
      out := [];
      for i := 0 to |events|
        invariant buffer == old(buffer)
        invariant RenderAll(decode, View(), events[i..]).state == RenderAll(decode, old(View()), events).state
        invariant out + RenderAll(decode, View(), events[i..]).out == RenderAll(decode, old(View()), events).out
      {
        assert events[i..][0] == events[i] && events[i..][1..] == events[i + 1..];
        var more := Render(events[i]);
        out := out + more;
      }
    }

    // -------------------------------------------------------------- the three calls

    method Push(chunk: string) returns (out: seq<Frame>)
      modifies this
      ensures var whole := old(buffer) + chunk;
        && buffer == whole[Cut(whole)..]
        && Reply(View(), out) == RenderAll(decode, old(View()), Sse.Parse(whole[..Cut(whole)]))
    {
      buffer := buffer + chunk;
      var split := Cut(buffer);
      out := [];
      if split > 0 {
        var ready := buffer[..split];
        buffer := buffer[split..];
        out := RenderText(ready);
      } else {
        assert buffer[..0] == "" && buffer[0..] == buffer;
        Sse.RoundTripSafe([]);
      }
    }

    method Finish() returns (out: seq<Frame>)
      modifies this
      ensures buffer == ""
      ensures var rest := RenderAll(decode, old(View()), Sse.Parse(old(buffer)));
        var last := Wrap(rest.state);
        Reply(View(), out) == Reply(last.state, rest.out + last.out)
    {
      var rest := buffer;
      buffer := "";
      out := RenderText(rest);
      if phase.started && !phase.finished && !phase.failed {
        var last;
        if msg.text != "" || items != [] || thinking.text != "" {
          last := OnComplete();
        } else {
          last := Failure("upstream stream ended without completion");
        }
        out := out + last;
      }
    }
  }

  /** Closing items changes neither the stop reason nor anything else the last event is chosen by. */
  lemma {:induction false} CloseKeepsStop(st: State)
    ensures CloseOpenItems(st).state.stopReason == st.stopReason
  {
    var text := CloseText(st).state;
    CloseFromKeepsStop(text, text.items, 0);
  }

  lemma {:induction false} CloseFromKeepsStop(st: State, items: seq<Item>, position: nat)
    requires position <= |items|
    ensures CloseItemsFrom(st, items, position).state.stopReason == st.stopReason
    decreases |items| - position
  {
    if position < |items| {
      CloseFromKeepsStop(CloseItem(st, items[position], position).state, items, position + 1);
    }
  }
}
