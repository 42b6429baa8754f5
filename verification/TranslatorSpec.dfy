/** The stream translator as functions of its state: what each call answers and leaves behind. */
module TranslatorSpec {
  import opened Text
  import opened Protocol
  import Sse

  const USIZE_MAX: nat := 0xFFFF_FFFF_FFFF_FFFF

  datatype Phase = Phase(started: bool, finished: bool, failed: bool, failedKind: Option<string>,
                         failedMessage: Option<string>, sawKeepalive: bool)

  datatype Counters = Counters(input: nat, output: nat, cached: nat, cacheCreation: nat)

  /** The one assistant message all text deltas share. */
  datatype TextSlot = TextSlot(itemId: Option<string>, index: Option<nat>, text: string)

  datatype ThinkingSlot = ThinkingSlot(index: Option<nat>, text: string)

  /** The latest compaction message, and the block still feeding it. */
  datatype CompactionSlot = CompactionSlot(itemId: Option<string>, index: Option<nat>, active: Option<nat>,
                                           text: string)

  /** Tool calls by ordinal, and the ordinal of each tool block. */
  datatype Tools = Tools(count: nat, indexes: seq<nat>, itemIds: seq<string>, ordinals: map<nat, nat>)

  datatype State = State(
    id: string,
    model: string,
    phase: Phase,
    sequence: nat,
    usage: Counters,
    next: nat,
    msg: TextSlot,
    thinking: ThinkingSlot,
    cmp: CompactionSlot,
    tools: Tools,
    indexes: map<string, nat>,
    items: seq<Item>,
    stopReason: Option<string>)
  {
    predicate Closed() {
      phase.finished || phase.failed
    }

    predicate HasDeliverable() {
      msg.text != "" || items != [] || thinking.text != ""
    }

    function Totals(): Totals {
      Protocol.Totals(usage.input + usage.cached + usage.cacheCreation, usage.output, usage.cached)
    }

    function Base(status: ResponseStatus, output: seq<Item>): Response {
      Response(id, model, status, output, Totals())
    }
  }

  /** The Responses ordinal an argument piece belongs to: its block's tool, or the latest one. */
  function ToolOrdinal(tools: Tools, block: Option<nat>): nat {
    if block.Some? && block.value in tools.ordinals then tools.ordinals[block.value]
    else if tools.count == 0 then 0 else tools.count - 1
  }

  function ToolItemId(tools: Tools, ordinal: nat): string {
    if ordinal < |tools.itemIds| then tools.itemIds[ordinal] else "fc_" + Digits(ordinal)
  }

  function ToolOutputIndex(tools: Tools, ordinal: nat): nat {
    if ordinal < |tools.indexes| then tools.indexes[ordinal] else ordinal
  }

  function Fresh(id: string, model: string): State {
    State(id, model, Phase(false, false, false, None, None, false), 0, Counters(0, 0, 0, 0), 0,
          TextSlot(None, None, ""), ThinkingSlot(None, ""), CompactionSlot(None, None, None, ""),
          Tools(0, [], [], map[]), map[], [], None)
  }

  /** A reply: the state afterwards and what was sent. */
  datatype Reply = Reply(state: State, out: seq<Frame>)

  function Frames(first: nat, bodies: seq<Body>): (fs: seq<Frame>)
    ensures |fs| == |bodies|
    ensures forall i :: 0 <= i < |bodies| ==> fs[i] == Event(first + i, bodies[i])
  {
    seq(|bodies|, i requires 0 <= i < |bodies| => Event(first + i, bodies[i]))
  }

  function Send(st: State, bodies: seq<Body>): Reply {
    Reply(st.(sequence := st.sequence + |bodies|), Frames(st.sequence, bodies))
  }

  function Silent(st: State): Reply {
    Reply(st, [])
  }

  // ---------------------------------------------------------------- items by id

  /** The first item with an id, as `iter().find` and `position` see it. */
  function FindItem(items: seq<Item>, id: string): (r: Option<nat>)
    ensures r.Some? ==> r.value < |items| && items[r.value].id == id
    ensures r.Some? ==> forall k :: 0 <= k < r.value ==> items[k].id != id
    ensures r.None? ==> forall k :: 0 <= k < |items| ==> items[k].id != id
  {
    if items == [] then None
    else if items[0].id == id then Some(0)
    else match FindItem(items[1..], id)
      case Some(k) => Some(k + 1)
      case None => None
  }

  function FindId(ids: seq<string>, id: string): (r: Option<nat>)
    ensures r.Some? ==> r.value < |ids| && ids[r.value] == id
    ensures r.Some? ==> forall k :: 0 <= k < r.value ==> ids[k] != id
    ensures r.None? ==> id !in ids
  {
    if ids == [] then None
    else if ids[0] == id then Some(0)
    else match FindId(ids[1..], id)
      case Some(k) => Some(k + 1)
      case None => None
  }

  function Replace(items: seq<Item>, id: string, change: Item -> Item): (r: seq<Item>)
    ensures |r| == |items|
  {
    match FindItem(items, id)
    case Some(k) => items[k := change(items[k])]
    case None => items
  }

  function WithText(item: Item, text: string): Item {
    if item.Message? then item.(text := Some(text)) else item
  }

  function WithMoreArguments(item: Item, partial: string): Item {
    if item.FunctionCall? then item.(arguments := item.arguments + partial) else item
  }

  function WithArguments(item: Item, arguments: string): Item {
    if item.FunctionCall? then item.(arguments := arguments) else item
  }

  function AsCompleted(item: Item): Item {
    if item.Reasoning? then item else item.(status := Status.Completed)
  }

  predicate IsDone(item: Item) {
    !item.Reasoning? && item.status == Status.Completed
  }

  // ---------------------------------------------------------------- deltas

  function TextDelta(st: State, text: string): Reply {
    var joined := st.msg.text + text;
    if st.msg.itemId.None? then
      var itemId, index := "msg_" + st.id, st.next;
      Send(st.(msg := TextSlot(Some(itemId), Some(index), joined), next := index + 1),
           [ItemAdded(index, Message(itemId, InProgress, None)),
            PartAdded(itemId, index),
            OutputTextDelta(itemId, index, text)])
    else
      Send(st.(msg := st.msg.(text := joined)),
           [OutputTextDelta(st.msg.itemId.value, st.msg.index.GetOr(0), text)])
  }

  function ThinkingDelta(st: State, text: string): Reply {
    var joined, index := st.thinking.text + text, st.thinking.index.GetOr(st.next);
    Send(st.(thinking := ThinkingSlot(Some(index), joined),
             next := if st.thinking.index.Some? then st.next else st.next + 1),
         [ReasoningDelta("rs_" + st.id, index, text)])
  }

  function CompactionDelta(st: State, text: string): Reply {
    if text == "" || st.cmp.itemId.None? then Silent(st)
    else
      var itemId, joined := st.cmp.itemId.value, st.cmp.text + text;
      Send(st.(cmp := st.cmp.(text := joined),
               items := Replace(st.items, itemId, item => WithText(item, joined))),
           [OutputTextDelta(itemId, st.cmp.index.GetOr(0), text)])
  }

  function ArgumentsPiece(st: State, block: Option<nat>, partial: string): Reply {
    var ordinal := ToolOrdinal(st.tools, block);
    var items := if ordinal < |st.tools.itemIds|
                 then Replace(st.items, st.tools.itemIds[ordinal], item => WithMoreArguments(item, partial))
                 else st.items;
    Send(st.(items := items),
         [ArgumentsDelta(ToolItemId(st.tools, ordinal), ToolOutputIndex(st.tools, ordinal), partial)])
  }

  function Piece(st: State, index: Option<nat>, delta: Delta): Reply {
    match delta
    case ThinkingPiece(Some(text)) => ThinkingDelta(st, text)
    case CompactionPiece(Some(text)) => CompactionDelta(st, text)
    case TextPiece(Some(text)) => TextDelta(st, text)
    case InputJsonPiece(Some(partial)) => ArgumentsPiece(st, index, partial)
    case _ => Silent(st)
  }

  // ---------------------------------------------------------------- block starts

  function CompactionId(st: State, index: nat): string {
    "msg_cmp_" + st.id + "_" + Digits(index)
  }

  function OpenCompaction(st: State, index: nat): Reply {
    var itemId, output := CompactionId(st, index), st.next;
    var item := Message(itemId, InProgress, None);
    Send(st.(next := output + 1,
             indexes := st.indexes[itemId := output],
             cmp := CompactionSlot(Some(itemId), Some(output), Some(index), ""),
             items := st.items + [item]),
         [ItemAdded(output, item), PartAdded(itemId, output)])
  }

  function StartCompaction(st: State, index: nat, content: Option<string>): Reply {
    var begun := OpenCompaction(st, index);
    if content.Some? then
      var more := CompactionDelta(begun.state, content.value);
      Reply(more.state, begun.out + more.out)
    else begun
  }

  function CallId(st: State, id: Option<string>): string {
    if id.Some? && Trim(id.value) != "" then id.value
    else "call_" + st.id + "_" + Digits(st.tools.count)
  }

  /** The arguments a tool block brings with its start; the usual placeholders count as none. */
  function InitialArguments(input: Option<string>): string {
    if input.None? then ""
    else
      var trimmed := Trim(input.value);
      if trimmed == "" || trimmed == "{}" || trimmed == "null" then "" else input.value
  }

  function AddTool(tools: Tools, index: Option<nat>, itemId: string, output: nat): Tools {
    Tools(tools.count + 1, tools.indexes + [output], tools.itemIds + [itemId],
          if index.Some? then tools.ordinals[index.value := tools.count] else tools.ordinals)
  }

  function OpenTool(st: State, index: Option<nat>, callId: string, name: string): Reply {
    var itemId, output := "fc_" + callId, st.next;
    var item := FunctionCall(itemId, InProgress, callId, name, "");
    Send(st.(tools := AddTool(st.tools, index, itemId, output),
             next := output + 1,
             indexes := st.indexes[itemId := output],
             items := st.items + [item]),
         [ItemAdded(output, item)])
  }

  function FirstArguments(st: State, itemId: string, output: nat, initial: string): Reply {
    if initial == "" then Silent(st)
    else
      Send(st.(items := Replace(st.items, itemId, stored => WithArguments(stored, initial))),
           [ArgumentsDelta(itemId, output, initial)])
  }

  function StartTool(st: State, index: Option<nat>, id: Option<string>, name: string, input: Option<string>): Reply {
    var callId := CallId(st, id);
    var begun := OpenTool(st, index, callId, name);
    var more := FirstArguments(begun.state, "fc_" + callId, st.next, InitialArguments(input));
    Reply(more.state, begun.out + more.out)
  }

  function Start(st: State, index: Option<nat>, block: Block): Reply {
    match block
    case CompactionBlock(content) => StartCompaction(st, index.GetOr(0), content)
    case ToolUse(id, name, input) => StartTool(st, index, id, name, input)
    case OtherBlock => Silent(st)
  }

  // ---------------------------------------------------------------- closing

  function CloseCompaction(st: State): Reply {
    if st.cmp.itemId.None? then Silent(st)
    else
      var itemId := st.cmp.itemId.value;
      var found := FindItem(st.items, itemId);
      if found.None? || IsDone(st.items[found.value]) then Silent(st)
      else
        var output, text := st.cmp.index.GetOr(0), st.cmp.text;
        var item := WithText(AsCompleted(st.items[found.value]), text);
        Send(st.(items := st.items[found.value := item]),
             [OutputTextDone(itemId, output, text), PartDone(itemId, output, text), ItemDone(output, item)])
  }

  /** Where a still open item was announced: tools by their ordinal, anything else as the compaction. */
  function OpenItemIndex(st: State, item: Item, position: nat): nat {
    if item.FunctionCall? then
      match FindId(st.tools.itemIds, item.id)
      case Some(ordinal) => ToolOutputIndex(st.tools, ordinal)
      case None => position
    else st.cmp.index.GetOr(position)
  }

  function CloseItem(st: State, item: Item, position: nat): Reply {
    if IsDone(item) then Silent(st)
    else if st.cmp.itemId == Some(item.id) then CloseCompaction(st)
    else
      var output := OpenItemIndex(st, item, position);
      if item.FunctionCall? then
        Send(st, [ArgumentsDone(item.id, output, item.arguments), ItemDone(output, AsCompleted(item))])
      else
        Send(st, [ItemDone(output, AsCompleted(item))])
  }

  /** Close the items of a snapshot from one position on. */
  function CloseItemsFrom(st: State, items: seq<Item>, position: nat): Reply
    requires position <= |items|
    decreases |items| - position
  {
    if position == |items| then Silent(st)
    else
      var one := CloseItem(st, items[position], position);
      var rest := CloseItemsFrom(one.state, items, position + 1);
      Reply(rest.state, one.out + rest.out)
  }

  function CloseText(st: State): Reply {
    if st.msg.itemId.None? then Silent(st)
    else
      var itemId, output := st.msg.itemId.value, st.msg.index.GetOr(0);
      Send(st, [OutputTextDone(itemId, output, st.msg.text),
                PartDone(itemId, output, st.msg.text),
                ItemDone(output, Message(itemId, Status.Completed, Some(st.msg.text)))])
  }

  function CloseOpenItems(st: State): Reply {
    var text := CloseText(st);
    var rest := CloseItemsFrom(text.state, text.state.items, 0);
    Reply(rest.state, text.out + rest.out)
  }

  // ---------------------------------------------------------------- the terminal object

  datatype Entry = Entry(index: nat, order: nat, item: Item)

  predicate Before(a: Entry, b: Entry) {
    a.index < b.index || (a.index == b.index && a.order <= b.order)
  }

  function Insert(e: Entry, es: seq<Entry>): seq<Entry> {
    if es == [] then [e]
    else if Before(e, es[0]) then [e] + es
    else [es[0]] + Insert(e, es[1..])
  }

  /** `sort_by_key` on the pair of output index and order. */
  function Sorted(es: seq<Entry>): seq<Entry> {
    if es == [] then [] else Insert(es[0], Sorted(es[1..]))
  }

  function ItemsOf(es: seq<Entry>): seq<Item> {
    if es == [] then [] else [es[0].item] + ItemsOf(es[1..])
  }

  function ItemIndex(st: State, item: Item, position: nat): nat {
    if item.id in st.indexes then st.indexes[item.id] else OpenItemIndex(st, item, position)
  }

  /** Stored items from a position on, each with its index and a running order. */
  function ItemEntries(st: State, position: nat, order: nat): (es: seq<Entry>)
    requires position <= |st.items|
    decreases |st.items| - position
  {
    if position == |st.items| then []
    else
      var item := st.items[position];
      [Entry(ItemIndex(st, item, position), order, AsCompleted(item))] + ItemEntries(st, position + 1, order + 1)
  }

  function ReasoningEntries(st: State): seq<Entry> {
    if st.thinking.text == "" then []
    else [Entry(st.thinking.index.GetOr(0), 0, Reasoning("rs_" + st.id, st.thinking.text))]
  }

  function TextEntries(st: State, order: nat): seq<Entry> {
    if st.msg.itemId.None? then []
    else [Entry(st.msg.index.GetOr(0), order, Message(st.msg.itemId.value, Status.Completed, Some(st.msg.text)))]
  }

  function Entries(st: State): seq<Entry> {
    var reasoning := ReasoningEntries(st);
    var text := TextEntries(st, |reasoning|);
    reasoning + text + ItemEntries(st, 0, |reasoning| + |text|)
  }

  function FinalOutput(st: State): seq<Item> {
    ItemsOf(Sorted(Entries(st)))
  }

  // ---------------------------------------------------------------- ends of the stream

  function Finally(st: State, body: Body): Reply {
    var said := Send(st, [body]);
    Reply(said.state, said.out + [DoneMark])
  }

  function Complete(st: State): Reply {
    if st.Closed() then Silent(st)
    else
      var closed := CloseOpenItems(st.(phase := st.phase.(finished := true)));
      var output := FinalOutput(closed.state);
      var last := Finally(closed.state,
        if st.stopReason == Some("max_tokens") then IncompleteBody(closed.state.Base(IncompleteResponse, output))
        else CompletedBody(closed.state.Base(CompletedResponse, output)));
      Reply(last.state, closed.out + last.out)
  }

  function Announce(st: State): Reply {
    if st.phase.started then Silent(st)
    else Send(st.(phase := st.phase.(started := true)), [CreatedBody(st.Base(RunningResponse, []))])
  }

  function FailWith(st: State, kind: string, message: string): Reply {
    if st.Closed() then Silent(st)
    else
      var begun := Announce(st);
      var ended := begun.state.(phase := begun.state.phase.(finished := true, failed := true,
                                                             failedKind := Some(kind), failedMessage := Some(message)));
      var last := Finally(ended, FailedBody(ended.Base(FailedResponse, FinalOutput(ended)), Some(kind), message));
      Reply(last.state, begun.out + last.out)
  }

  function Fail(st: State, message: string): Reply {
    FailWith(st, "api_error", message)
  }

  // ---------------------------------------------------------------- one event

  function IngestUsage(counters: Counters, usage: Option<Usage>): Counters {
    match usage
    case None => counters
    case Some(u) => Counters(u.input.GetOr(counters.input), u.output.GetOr(counters.output),
                             u.cacheRead.GetOr(counters.cached), u.cacheCreation.GetOr(counters.cacheCreation))
  }

  function OnStart(st: State, model: Option<string>, usage: Option<Usage>): Reply {
    var st1 := st.(model := model.GetOr(st.model), usage := IngestUsage(st.usage, usage),
                   phase := st.phase.(started := true));
    Send(st1, [CreatedBody(st1.Base(RunningResponse, []))])
  }

  function OnPing(st: State): Reply {
    var begun := Announce(st.(phase := st.phase.(sawKeepalive := true)));
    var beat := Send(begun.state, [InProgressBody(begun.state.Base(RunningResponse, begun.state.items))]);
    Reply(beat.state, begun.out + beat.out)
  }

  function OnMessageDelta(st: State, stopReason: Option<string>, usage: Option<Usage>): State {
    st.(stopReason := if stopReason.Some? && stopReason.value != "" then stopReason else st.stopReason,
        usage := IngestUsage(st.usage, usage))
  }

  function OnStop(st: State, index: Option<nat>): Reply {
    if st.cmp.active == Some(index.GetOr(USIZE_MAX))
    then CloseCompaction(st.(cmp := st.cmp.(active := None)))
    else Silent(st)
  }

  function Step(st: State, event: Upstream): Reply {
    if st.Closed() then Silent(st)
    else match event
      case MessageStart(model, usage) => OnStart(st, model, usage)
      case BlockDelta(index, delta) => Piece(st, index, delta)
      case BlockStart(index, block) => Start(st, index, block)
      case MessageDelta(stopReason, usage) => Silent(OnMessageDelta(st, stopReason, usage))
      case BlockStop(index) => OnStop(st, index)
      case MessageStop => Complete(st)
      case ErrorEvent(kind, message) => FailWith(st, kind.GetOr("api_error"), message.GetOr("upstream error"))
      case Ping => OnPing(st)
      case OtherEvent => Silent(st)
  }

  /** A run over decoded events. */
  function Run(st: State, events: seq<Upstream>): Reply
    decreases |events|
  {
    if events == [] then Silent(st)
    else
      var first := Step(st, events[0]);
      var rest := Run(first.state, events[1..]);
      Reply(rest.state, first.out + rest.out)
  }

  // ---------------------------------------------------------------- wire events and calls

  /** JSON decoding, whatever it is: None for text that is not JSON. */
  type Decoder = string -> Option<Upstream>

  function RenderEvent(decode: Decoder, st: State, event: Sse.SseEvent): Reply {
    if st.Closed() then Silent(st)
    else match decode(event.data)
      case None => Silent(st)
      case Some(upstream) => Step(st, upstream)
  }

  function RenderAll(decode: Decoder, st: State, events: seq<Sse.SseEvent>): Reply
    decreases |events|
  {
    if events == [] then Silent(st)
    else
      var first := RenderEvent(decode, st, events[0]);
      var rest := RenderAll(decode, first.state, events[1..]);
      Reply(rest.state, first.out + rest.out)
  }

  predicate BlankAt(buffer: string, i: nat) {
    i + 1 < |buffer| && buffer[i] == Sse.LF && buffer[i + 1] == Sse.LF
  }

  /** Just past the last blank line; 0 when there is none. */
  function Cut(buffer: string): (k: nat)
    ensures k <= |buffer|
    ensures k == 0 || (k >= 2 && BlankAt(buffer, k - 2))
    ensures forall i: nat :: BlankAt(buffer, i) ==> i + 2 <= k
  {
    if |buffer| < 2 then 0
    else if BlankAt(buffer, |buffer| - 2) then |buffer|
    else
      var n := |buffer| - 1;
      assert forall i: nat :: BlankAt(buffer, i) ==> BlankAt(buffer[..n], i);
      Cut(buffer[..n])
  }

  /** What the end of the stream adds once the buffered rest has been rendered. */
  function Wrap(st: State): Reply {
    if st.phase.started && !st.Closed() then
      if st.HasDeliverable() then Complete(st) else Fail(st, "upstream stream ended without completion")
    else Silent(st)
  }
}
