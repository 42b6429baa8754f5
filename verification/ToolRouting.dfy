/** Argument pieces of interleaved tool blocks reach the call they belong to, and only that one. */
module ToolRouting {
  import opened Text
  import opened Protocol
  import opened TranslatorSpec
  import opened Chunking
  import opened Ledger
  import opened Lifecycle
  import opened Closing
  import opened TerminalOutput
  import opened Completion
  import opened Terminal

  // ---------------------------------------------------------------- said of the upstream events alone

  predicate StartsTool(event: Upstream) {
    event.BlockStart? && event.block.ToolUse?
  }

  /** How many tool blocks the events start. */
  function ToolCount(events: seq<Upstream>): nat {
    if events == [] then 0
    else ToolCount(events[..|events| - 1]) + if StartsTool(events[|events| - 1]) then 1 else 0
  }

  /** Where the last tool block starts. */
  function LatestTool(events: seq<Upstream>): (i: Option<nat>)
    ensures i.Some? ==> i.value < |events| && StartsTool(events[i.value])
  {
    if events == [] then None
    else if StartsTool(events[|events| - 1]) then Some(|events| - 1)
    else LatestTool(events[..|events| - 1])
  }

  /** Where the last tool block of this index starts. */
  function StartOf(events: seq<Upstream>, block: nat): (i: Option<nat>)
    ensures i.Some? ==> i.value < |events| && StartsTool(events[i.value])
  {
    if events == [] then None
    else
      var n := |events| - 1;
      if StartsTool(events[n]) && events[n].index == Some(block) then Some(n) else StartOf(events[..n], block)
  }

  /** The tool block an argument piece belongs to: that of its index, or else the latest one. */
  function Owner(events: seq<Upstream>, block: Option<nat>): Option<nat> {
    if block.Some? && StartOf(events, block.value).Some? then StartOf(events, block.value) else LatestTool(events)
  }

  function PieceFor(before: seq<Upstream>, event: Upstream, i: nat): string {
    match event
    case BlockDelta(block, InputJsonPiece(Some(partial))) => if Owner(before, block) == Some(i) then partial else ""
    case _ => ""
  }

  /** The pieces that belong to the tool block started at `i`, joined. */
  function PiecesOf(events: seq<Upstream>, i: nat): string {
    if events == [] then ""
    else
      var n := |events| - 1;
      PiecesOf(events[..n], i) + PieceFor(events[..n], events[n], i)
  }

  /** A start input that stands for none: `{}`, `null` or nothing, between blanks. */
  ghost predicate Placeholder(input: string) {
    exists a, core, b :: input == a + core + b && Blank(a) && Blank(b) && core in {"", "{}", "null"}
  }

  ghost function StartInput(input: Option<string>): string {
    if input.None? || Placeholder(input.value) then "" else input.value
  }

  lemma InitialIsStartInput(input: Option<string>)
    ensures InitialArguments(input) == StartInput(input)
  {
    hide Trim, IsSpace;
    if input.Some? {
      var s := input.value;
      var a, b := TrimCuts(s);
      forall x, core, y | s == x + core + y && Blank(x) && Blank(y) && core in {"", "{}", "null"}
        ensures Trim(s) == core
      {
        CoresHaveNoBlanks(core);
        TrimOf(x, core, y);
      }
    }
  }

  lemma CoresHaveNoBlanks(core: string)
    requires core in {"", "{}", "null"}
    ensures core != "" ==> !IsSpace(core[0]) && !IsSpace(core[|core| - 1])
  {}

  // ---------------------------------------------------------------- what the state keeps of it

  /** Tool blocks are counted, and each index knows the last one that had it. */
  ghost predicate ToolsTracked(st: State, events: seq<Upstream>) {
    && |st.tools.itemIds| == |st.tools.indexes| == st.tools.count == ToolCount(events)
    && forall block :: match StartOf(events, block)
         case None => block !in st.tools.ordinals
         case Some(i) => block in st.tools.ordinals && st.tools.ordinals[block] == ToolCount(events[..i])
  }

  lemma {:induction false} CountGrows(events: seq<Upstream>, i: nat, n: nat)
    requires i < n <= |events| && StartsTool(events[i])
    ensures ToolCount(events[..i]) < ToolCount(events[..n])
    decreases n
  {
    assert events[..n][..n - 1] == events[..n - 1];
    if i < n - 1 {
      CountGrows(events, i, n - 1);
    }
  }

  /** Tool blocks are told apart by how many started before them. */
  lemma CountsDiffer(events: seq<Upstream>, i: nat, j: nat)
    requires i < |events| && j < |events| && StartsTool(events[i]) && StartsTool(events[j])
    ensures ToolCount(events[..i]) == ToolCount(events[..j]) <==> i == j
  {
    if i < j {
      CountGrows(events, i, j);
    } else if j < i {
      CountGrows(events, j, i);
    }
  }

  lemma {:induction false} LatestIsLast(events: seq<Upstream>)
    ensures match LatestTool(events)
      case None => ToolCount(events) == 0
      case Some(i) => ToolCount(events) == ToolCount(events[..i]) + 1
  {
    if events != [] {
      var n := |events| - 1;
      LatestIsLast(events[..n]);
      if LatestTool(events).Some? && LatestTool(events).value < n {
        assert events[..n][..LatestTool(events).value] == events[..LatestTool(events).value];
      }
    }
  }

  /** The ordinal a piece is sent to is that of its owner. */
  lemma OrdinalOfOwner(st: State, events: seq<Upstream>, block: Option<nat>, i: nat)
    requires ToolsTracked(st, events) && st.tools.count > 0 && i < |events| && StartsTool(events[i])
    ensures ToolOrdinal(st.tools, block) == ToolCount(events[..i]) <==> Owner(events, block) == Some(i)
  {
    hide ToolCount, StartOf, LatestTool;
    LatestIsLast(events);
    var owner := Owner(events, block).value;
    CountsDiffer(events, i, owner);
    assert block.Some? ==> match StartOf(events, block.value)
      case None => block.value !in st.tools.ordinals
      case Some(j) => block.value in st.tools.ordinals && st.tools.ordinals[block.value] == ToolCount(events[..j]);
  }

  lemma StepTools(st: State, event: Upstream)
    requires !st.Closed() && !EndsStream(event)
    ensures var tools1 := Step(st, event).state.tools;
      if StartsTool(event) then tools1 == AddTool(st.tools, event.index, "fc_" + CallId(st, event.block.id), st.next)
      else tools1 == st.tools
  {
    hide FindItem, InitialArguments, CallId, CompactionId, AddTool, Frames, ToolOrdinal;
  }

  lemma OneMoreTracked(st: State, events: seq<Upstream>, event: Upstream)
    requires ToolsTracked(st, events) && !st.Closed() && !EndsStream(event)
    ensures ToolsTracked(Step(st, event).state, events + [event])
  {
    hide Step, CallId, ToolCount;
    StepTools(st, event);
    var more := events + [event];
    CountMore(events, event);
    forall block: nat ensures StartOf(more, block)
        == if StartsTool(event) && event.index == Some(block) then Some(|events|) else StartOf(events, block) {
      assert more[..|events|] == events;
    }
    forall block: nat | StartOf(events, block).Some?
      ensures more[..StartOf(events, block).value] == events[..StartOf(events, block).value] {}
    assert more[..|events|] == events;
  }

  lemma CountMore(events: seq<Upstream>, event: Upstream)
    ensures ToolCount(events + [event]) == ToolCount(events) + if StartsTool(event) then 1 else 0
  {
    assert (events + [event])[..|events|] == events;
  }

  // ---------------------------------------------------------------- one call under way

  /** The call is stored once, under its ordinal, and it holds these arguments. */
  ghost predicate Held(st: State, itemId: string, ordinal: nat, item: Item) {
    && ordinal < |st.tools.itemIds| == st.tools.count
    && (forall j :: 0 <= j < |st.tools.itemIds| ==> (st.tools.itemIds[j] == itemId <==> j == ordinal))
    && st.cmp.itemId != Some(itemId)
    && item.FunctionCall? && item.id == itemId
    && var found := FindItem(st.items, itemId);
    && found.Some? && st.items[found.value] == item
  }

  lemma {:induction false} FindAfterReplace(items: seq<Item>, id: string, change: Item -> Item, other: string)
    requires forall x :: change(x).id == x.id
    ensures FindItem(Replace(items, id, change), other) == FindItem(items, other)
  {
    FindSameIds(items, Replace(items, id, change), other);
  }

  /** Changing the first item with another id leaves this one as it was. */
  lemma ReplaceOther(items: seq<Item>, id: string, change: Item -> Item, itemId: string)
    requires id != itemId && FindItem(items, itemId).Some?
    requires forall x :: change(x).id == x.id
    ensures var found := FindItem(Replace(items, id, change), itemId);
      found == FindItem(items, itemId) && Replace(items, id, change)[found.value] == items[found.value]
  {
    FindAfterReplace(items, id, change, itemId);
  }

  lemma PieceHeld(st: State, itemId: string, ordinal: nat, item: Item, block: Option<nat>, partial: string)
    requires Held(st, itemId, ordinal, item)
    ensures Held(ArgumentsPiece(st, block, partial).state, itemId, ordinal,
                 if ToolOrdinal(st.tools, block) == ordinal then WithMoreArguments(item, partial) else item)
  {
    var o := ToolOrdinal(st.tools, block);
    var change := (i: Item) => WithMoreArguments(i, partial);
    if o == ordinal {
      FindAfterReplace(st.items, itemId, change, itemId);
    } else if o < |st.tools.itemIds| {
      ReplaceOther(st.items, st.tools.itemIds[o], change, itemId);
    }
  }

  lemma CompactionTextHeld(st: State, itemId: string, ordinal: nat, item: Item, text: string)
    requires Held(st, itemId, ordinal, item)
    ensures Held(CompactionDelta(st, text).state, itemId, ordinal, item)
  {
    if text != "" && st.cmp.itemId.Some? {
      var joined := st.cmp.text + text;
      ReplaceOther(st.items, st.cmp.itemId.value, i => WithText(i, joined), itemId);
    }
  }

  lemma StartCompactionHeld(st: State, itemId: string, ordinal: nat, item: Item, index: nat, content: Option<string>)
    requires Held(st, itemId, ordinal, item) && CompactionId(st, index) != itemId
    ensures Held(StartCompaction(st, index, content).state, itemId, ordinal, item)
  {
    var begun := OpenCompaction(st, index).state;
    FindAppended(st.items, Message(CompactionId(st, index), InProgress, None));
    assert Held(begun, itemId, ordinal, item);
    if content.Some? {
      CompactionTextHeld(begun, itemId, ordinal, item, content.value);
    }
  }

  lemma StartToolHeld(st: State, itemId: string, ordinal: nat, item: Item,
                      index: Option<nat>, id: Option<string>, name: string, input: Option<string>)
    requires Held(st, itemId, ordinal, item) && "fc_" + CallId(st, id) != itemId
    ensures Held(StartTool(st, index, id, name, input).state, itemId, ordinal, item)
  {
    hide InitialArguments;
    var callId, initial := CallId(st, id), InitialArguments(input);
    var begun := OpenTool(st, index, callId, name).state;
    FindAppended(st.items, FunctionCall("fc_" + callId, InProgress, callId, name, ""));
    assert Held(begun, itemId, ordinal, item);
    if initial != "" {
      ReplaceOther(begun.items, "fc_" + callId, stored => WithArguments(stored, initial), itemId);
    }
  }

  lemma CloseCompactionHeld(st: State, itemId: string, ordinal: nat, item: Item)
    requires Held(st, itemId, ordinal, item)
    ensures Held(CloseCompaction(st).state, itemId, ordinal, item)
  {
    FindSameIds(st.items, CloseCompaction(st).state.items, itemId);
  }

  /** What an event has for the call of this ordinal. */
  function PieceTo(st: State, event: Upstream, ordinal: nat): string {
    match event
    case BlockDelta(block, InputJsonPiece(Some(partial))) =>
      if ToolOrdinal(st.tools, block) == ordinal then partial else ""
    case _ => ""
  }

  /** One event: the call grows by exactly the piece the event has for it. */
  lemma StepHeld(st: State, c: Check, itemId: string, ordinal: nat, item: Item, event: Upstream)
    requires Held(st, itemId, ordinal, item) && itemId in c.ids && CheckLinked(st, c)
    requires !st.Closed() && !EndsStream(event) && Admits(st.id, c, event)
    ensures Held(Step(st, event).state, itemId, ordinal, WithMoreArguments(item, PieceTo(st, event, ordinal)))
  {
    hide InitialArguments, Held, CheckLinked, Start, CompactionDelta, ArgumentsPiece, CloseCompaction;
    NoMoreArguments(item);
    match event {
      case BlockDelta(block, InputJsonPiece(Some(partial))) => PieceHeld(st, itemId, ordinal, item, block, partial);
      case BlockDelta(_, CompactionPiece(Some(text))) => CompactionTextHeld(st, itemId, ordinal, item, text);
      case BlockStart(index, started) => StartHeld(st, c, itemId, ordinal, item, index, started);
      case BlockStop(index) =>
        SameStoreHeld(st, st.(cmp := st.cmp.(active := None)), itemId, ordinal, item);
        CloseCompactionHeld(st.(cmp := st.cmp.(active := None)), itemId, ordinal, item);
      case _ => SameStoreHeld(st, Step(st, event).state, itemId, ordinal, item);
    }
  }

  lemma SameStoreHeld(st: State, st1: State, itemId: string, ordinal: nat, item: Item)
    requires Held(st, itemId, ordinal, item)
    requires st1.items == st.items && st1.tools == st.tools && st1.cmp.itemId == st.cmp.itemId
    ensures Held(st1, itemId, ordinal, item)
  {}

  lemma StartHeld(st: State, c: Check, itemId: string, ordinal: nat, item: Item, index: Option<nat>, started: Block)
    requires Held(st, itemId, ordinal, item) && itemId in c.ids && CheckLinked(st, c)
    requires Admits(st.id, c, BlockStart(index, started))
    ensures Held(Start(st, index, started).state, itemId, ordinal, item)
  {
    hide InitialArguments, Held;
    match started {
      case CompactionBlock(content) =>
        assert CompactionItemId(st.id, index.GetOr(0)) == CompactionId(st, index.GetOr(0));
        StartCompactionHeld(st, itemId, ordinal, item, index.GetOr(0), content);
      case ToolUse(id, name, input) =>
        assert ToolId(st.id, id, c.tools) == "fc_" + CallId(st, id);
        StartToolHeld(st, itemId, ordinal, item, index, id, name, input);
      case OtherBlock =>
    }
  }

  lemma MoreArguments(item: Item, x: string, y: string)
    ensures WithMoreArguments(WithMoreArguments(item, x), y) == WithMoreArguments(item, x + y)
  {
    if item.FunctionCall? {
      assert item.arguments + x + y == item.arguments + (x + y);
    }
  }

  lemma NoMoreArguments(item: Item)
    ensures WithMoreArguments(item, "") == item
  {
    if item.FunctionCall? {
      assert item.arguments + "" == item.arguments;
    }
  }

  // ---------------------------------------------------------------- a call starts

  lemma OpenHolds(st: State, b: Book, index: Option<nat>, callId: string, name: string)
    requires Linked(st, b) && FindItem(st.items, "fc_" + callId).None?
    ensures Held(OpenTool(st, index, callId, name).state, "fc_" + callId, st.tools.count,
                 FunctionCall("fc_" + callId, InProgress, callId, name, ""))
  {
    FindAppended(st.items, FunctionCall("fc_" + callId, InProgress, callId, name, ""));
    forall j | 0 <= j < st.tools.count ensures st.tools.itemIds[j] != "fc_" + callId {
      assert FindItem(st.items, st.tools.itemIds[j]).Some?;
    }
  }

  /** A tool start puts a new call in place, holding its start input. */
  lemma StartHolds(st: State, b: Book, index: Option<nat>, id: Option<string>, name: string, input: Option<string>)
    requires Linked(st, b) && FindItem(st.items, "fc_" + CallId(st, id)).None?
    ensures var callId := CallId(st, id);
      Held(StartTool(st, index, id, name, input).state, "fc_" + callId, st.tools.count,
           FunctionCall("fc_" + callId, InProgress, callId, name, StartInput(input)))
  {
    hide Linked, InitialArguments, StartInput, CallId;
    InitialIsStartInput(input);
    var callId, initial := CallId(st, id), InitialArguments(input);
    var itemId := "fc_" + callId;
    var begun := OpenTool(st, index, callId, name).state;
    OpenHolds(st, b, index, callId, name);
    if initial != "" {
      FindAfterReplace(begun.items, itemId, stored => WithArguments(stored, initial), itemId);
    }
  }

  lemma FreshInItems(st: State, c: Check, itemId: string)
    requires CheckLinked(st, c) && itemId !in c.ids
    ensures FindItem(st.items, itemId).None?
  {}

  ghost function NewCall(id: string, toolId: Option<string>, tools: nat, name: string, input: Option<string>): Item {
    var callId := ToolCallId(id, toolId, tools);
    FunctionCall("fc_" + callId, InProgress, callId, name, StartInput(input))
  }

  lemma AdmittedStartHolds(st: State, b: Book, c: Check, index: Option<nat>, toolId: Option<string>, name: string,
                           input: Option<string>)
    requires Linked(st, b) && CheckLinked(st, c) && !st.Closed() && ToolId(st.id, toolId, c.tools) !in c.ids
    ensures Held(Step(st, BlockStart(index, ToolUse(toolId, name, input))).state, ToolId(st.id, toolId, c.tools),
                 st.tools.count, NewCall(st.id, toolId, c.tools, name, input))
  {
    hide Linked, StartInput, InitialArguments, Held, StartTool;
    FreshInItems(st, c, ToolId(st.id, toolId, c.tools));
    assert CallId(st, toolId) == ToolCallId(st.id, toolId, c.tools);
    StartHolds(st, b, index, toolId, name, input);
  }

  // ---------------------------------------------------------------- the terminal object

  lemma {:induction false} InsertKeeps(e: Entry, es: seq<Entry>, item: Item)
    ensures item in ItemsOf(Insert(e, es)) <==> item == e.item || item in ItemsOf(es)
  {
    if es == [] {
      assert [e][1..] == [];
    } else if Before(e, es[0]) {
      assert ([e] + es)[1..] == es;
    } else {
      var rest := Insert(e, es[1..]);
      assert ([es[0]] + rest)[1..] == rest;
      InsertKeeps(e, es[1..], item);
    }
  }

  lemma {:induction false} SortedKeeps(es: seq<Entry>, item: Item)
    ensures item in ItemsOf(Sorted(es)) <==> item in ItemsOf(es)
  {
    if es != [] {
      InsertKeeps(es[0], Sorted(es[1..]), item);
      SortedKeeps(es[1..], item);
    }
  }

  lemma {:induction false} ItemsOfAt(es: seq<Entry>, j: nat)
    requires j < |es|
    ensures es[j].item in ItemsOf(es)
  {
    if j > 0 {
      ItemsOfAt(es[1..], j - 1);
      assert es[1..][j - 1] == es[j];
    }
  }

  lemma {:induction false} InItemsOf(es: seq<Entry>, item: Item) returns (i: nat)
    requires item in ItemsOf(es)
    ensures i < |es| && es[i].item == item
  {
    if item == es[0].item {
      i := 0;
    } else {
      var j := InItemsOf(es[1..], item);
      i := j + 1;
    }
  }

  /** Every stored item is in the terminal output, completed. */
  lemma StoredIsFinal(st: State, i: nat)
    requires i < |st.items|
    ensures AsCompleted(st.items[i]) in FinalOutput(st)
  {
    var reasoning := ReasoningEntries(st);
    var text := TextEntries(st, |reasoning|);
    var order := |reasoning| + |text|;
    ItemEntriesAt(st, 0, order);
    var es := Entries(st);
    assert es[order + i] == ItemEntries(st, 0, order)[i];
    ItemsOfAt(es, order + i);
    SortedKeeps(es, AsCompleted(st.items[i]));
  }

  lemma {:induction false} CloseFromHeld(st: State, items: seq<Item>, p: nat, itemId: string, ordinal: nat, item: Item)
    requires p <= |items| && Held(st, itemId, ordinal, item)
    ensures Held(CloseItemsFrom(st, items, p).state, itemId, ordinal, item)
    decreases |items| - p
  {
    hide Held, CloseCompaction;
    if p < |items| {
      CloseCompactionHeld(st, itemId, ordinal, item);
      var one := CloseItem(st, items[p], p).state;
      SameStoreHeldAfter(st, items[p], p, itemId, ordinal, item);
      CloseFromHeld(one, items, p + 1, itemId, ordinal, item);
    }
  }

  lemma SameStoreHeldAfter(st: State, closing: Item, p: nat, itemId: string, ordinal: nat, item: Item)
    requires Held(st, itemId, ordinal, item) && Held(CloseCompaction(st).state, itemId, ordinal, item)
    ensures Held(CloseItem(st, closing, p).state, itemId, ordinal, item)
  {
    hide CloseCompaction, OpenItemIndex;
  }

  lemma CompleteHasCall(st: State, itemId: string, ordinal: nat, item: Item)
    requires !st.Closed() && Held(st, itemId, ordinal, item)
    ensures HasCall(Complete(st).out, AsCompleted(item))
  {
    hide CloseItemsFrom, FinalOutput;
    var marked := st.(phase := st.phase.(finished := true));
    var text := CloseText(marked).state;
    CloseFromHeld(text, text.items, 0, itemId, ordinal, item);
    var closed := CloseOpenItems(marked).state;
    StoredIsFinal(closed, FindItem(closed.items, itemId).value);
  }

  /** The last two frames are a completion that lists an item, and the closing mark. */
  predicate HasCall(out: seq<Frame>, call: Item) {
    && |out| >= 2 && out[|out| - 1] == DoneMark && out[|out| - 2].Event?
    && (out[|out| - 2].body.CompletedBody? || out[|out| - 2].body.IncompleteBody?)
    && call in out[|out| - 2].body.response.output
  }

  lemma HasCallAfter(sent: seq<Frame>, out: seq<Frame>, call: Item)
    requires HasCall(out, call)
    ensures HasCall(sent + out, call)
  {}

  /** No event before the end ends the stream. */
  ghost predicate Ongoing(events: seq<Upstream>) {
    forall i :: 0 <= i < |events| ==> !EndsStream(events[i])
  }

  function After(id: string, c: Check, events: seq<Upstream>): Check
    decreases |events|
  {
    if events == [] then c else After(id, Next(id, c, events[0]), events[1..])
  }

  lemma {:induction false} WellFormedSplits(id: string, c: Check, before: seq<Upstream>, rest: seq<Upstream>)
    requires WellFormed(id, c, before + rest) && Ongoing(before)
    ensures WellFormed(id, c, before) && WellFormed(id, After(id, c, before), rest)
    decreases |before|
  {
    hide Admits, Next;
    if before == [] {
      assert before + rest == rest;
    } else {
      assert (before + rest)[0] == before[0] && (before + rest)[1..] == before[1..] + rest;
      assert !EndsStream(before[0]);
      WellFormedSplits(id, Next(id, c, before[0]), before[1..], rest);
    }
  }

  lemma OneMore(st: State, b: Book, c: Check, event: Upstream)
    requires Linked(st, b) && CheckLinked(st, c) && !st.Closed() && Admits(st.id, c, event) && !EndsStream(event)
    ensures var r := Step(st, event);
      && Linked(r.state, Observe(b, r.out)) && CheckLinked(r.state, Next(st.id, c, event))
      && !r.state.Closed() && r.state.id == st.id
  {
    StepLinked(st, b, c, event);
    StepAll(st, c, event);
  }

  /** Admitted events, one after the other. */
  lemma {:induction false} ManyMore(st: State, b: Book, c: Check, events: seq<Upstream>)
    requires Linked(st, b) && CheckLinked(st, c) && !st.Closed() && WellFormed(st.id, c, events) && Ongoing(events)
    ensures var r := Run(st, events);
      && Linked(r.state, Observe(b, r.out)) && CheckLinked(r.state, After(st.id, c, events))
      && !r.state.Closed() && r.state.id == st.id
    decreases |events|
  {
    hide Step, Linked, CheckLinked, Admits, Next;
    if events == [] {
      ObserveNothing(b);
    } else {
      OneMore(st, b, c, events[0]);
      var first := Step(st, events[0]);
      ManyMore(first.state, Observe(b, first.out), Next(st.id, c, events[0]), events[1..]);
      ObserveThen(b, first.out, Run(first.state, events[1..]).out);
    }
  }

  lemma FreshLinked(id: string, model: string)
    ensures Linked(Fresh(id, model), BLANK_BOOK) && CheckLinked(Fresh(id, model), START) && !Fresh(id, model).Closed()
  {}

  // ---------------------------------------------------------------- whole streams

  lemma StepAll(st: State, c: Check, event: Upstream)
    requires CheckLinked(st, c) && !st.Closed() && !EndsStream(event)
    ensures var st1 := Step(st, event).state;
      !st1.Closed() && st1.id == st.id && CheckLinked(st1, Next(st.id, c, event))
  {
    StepShape(st, event);
    StepChecked(st, c, event);
    StepKeepsId(st, event);
  }

  /** The tools of a run, read from its events. */
  lemma {:induction false} RunTools(id: string, model: string, events: seq<Upstream>)
    requires Ongoing(events)
    ensures var st := Run(Fresh(id, model), events).state; ToolsTracked(st, events) && !st.Closed()
    decreases |events|
  {
    hide Step, ToolsTracked;
    if events == [] {
      NothingTracked(id, model);
    } else {
      var n := |events| - 1;
      var before, last := events[..n], events[n];
      RunTools(id, model, before);
      var st := Run(Fresh(id, model), before).state;
      assert events == before + [last];
      RunAppend(Fresh(id, model), before, [last]);
      RunOne(st, last);
      StepShape(st, last);
      OneMoreTracked(st, before, last);
    }
  }

  lemma NothingTracked(id: string, model: string)
    ensures ToolsTracked(Fresh(id, model), []) && !Fresh(id, model).Closed()
  {}

  /** The item id of the tool block that starts at this event. */
  function StartedId(id: string, events: seq<Upstream>, i: nat): string
    requires i < |events| && StartsTool(events[i])
  {
    ToolId(id, events[i].block.id, After(id, START, events[..i]).tools)
  }

  /** The call of the tool block that starts at this event, as it stands once these events have come in. */
  ghost function CallSoFar(id: string, events: seq<Upstream>, i: nat): Item
    requires i < |events| && StartsTool(events[i])
  {
    var block := events[i].block;
    WithMoreArguments(NewCall(id, block.id, After(id, START, events[..i]).tools, block.name, block.input),
                      PiecesOf(events, i))
  }

  /** In a well-formed stream, whatever its order, each call collects what belongs to its block. */
  lemma {:induction false} CallInStream(id: string, model: string, events: seq<Upstream>, i: nat)
    requires WellFormed(id, START, events) && Ongoing(events) && i < |events| && StartsTool(events[i])
    ensures Held(Run(Fresh(id, model), events).state, StartedId(id, events, i), ToolCount(events[..i]),
                 CallSoFar(id, events, i))
    ensures StartedId(id, events, i) in After(id, START, events).ids
    decreases |events|
  {
    hide Step, Linked, CheckLinked, Observe, Held, StartInput, ToolCallId, WellFormed, Run, Admits, Owner, ToolCount;
    var n := |events| - 1;
    var before, last := events[..n], events[n];
    assert events == before + [last];
    WellFormedSplits(id, START, before, [last]);
    var c := After(id, START, before);
    LastAdmitted(id, c, last);
    FreshLinked(id, model);
    ManyMore(Fresh(id, model), BLANK_BOOK, START, before);
    RunTools(id, model, before);
    RunAppend(Fresh(id, model), before, [last]);
    var r := Run(Fresh(id, model), before);
    RunOne(r.state, last);
    AfterMore(id, START, before, last);
    assert before[..if i < n then i else n] == events[..i];
    if i == n {
      AdmittedStartHolds(r.state, Observe(BLANK_BOOK, r.out), c, last.index, last.block.id, last.block.name,
                         last.block.input);
      NotAdmittedTwice(id, c, last);
      NoneBelong(before, n);
      CountsAre(r.state, before);
      NoMoreArguments(NewCall(id, last.block.id, c.tools, last.block.name, last.block.input));
      assert "" + "" == "";
    } else {
      CallInStream(id, model, before, i);
      var item := CallSoFar(id, before, i);
      var ordinal := ToolCount(events[..i]);
      StepHeld(r.state, c, StartedId(id, events, i), ordinal, item, last);
      SamePiece(r.state, before, last, i);
      MoreArguments(NewCall(id, events[i].block.id, After(id, START, events[..i]).tools, events[i].block.name,
                            events[i].block.input), PiecesOf(before, i), PieceFor(before, last, i));
      IdsStay(id, c, last);
    }
  }

  lemma CountsAre(st: State, events: seq<Upstream>)
    requires ToolsTracked(st, events)
    ensures st.tools.count == ToolCount(events)
  {}

  lemma IdsStay(id: string, c: Check, event: Upstream)
    ensures c.ids <= Next(id, c, event).ids
  {}

  lemma LastAdmitted(id: string, c: Check, event: Upstream)
    requires WellFormed(id, c, [event])
    ensures Admits(id, c, event)
  {}

  lemma NotAdmittedTwice(id: string, c: Check, event: Upstream)
    requires Admits(id, c, event) && StartsTool(event)
    ensures ToolId(id, event.block.id, c.tools) !in c.ids
    ensures ToolId(id, event.block.id, c.tools) in Next(id, c, event).ids
  {}

  lemma {:induction false} AfterMore(id: string, c: Check, events: seq<Upstream>, event: Upstream)
    ensures After(id, c, events + [event]) == Next(id, After(id, c, events), event)
    decreases |events|
  {
    hide Next;
    if events == [] {
      assert [event][1..] == [];
    } else {
      assert (events + [event])[0] == events[0] && (events + [event])[1..] == events[1..] + [event];
      AfterMore(id, Next(id, c, events[0]), events[1..], event);
    }
  }

  /** Nothing belongs to a block that has not started. */
  lemma {:induction false} NoneBelong(events: seq<Upstream>, i: nat)
    requires |events| <= i
    ensures PiecesOf(events, i) == ""
    decreases |events|
  {
    if events != [] {
      NoneBelong(events[..|events| - 1], i);
    }
  }

  lemma SamePiece(st: State, events: seq<Upstream>, event: Upstream, i: nat)
    requires ToolsTracked(st, events) && i < |events| && StartsTool(events[i])
    ensures PieceTo(st, event, ToolCount(events[..i])) == PieceFor(events, event, i)
  {
    hide Owner, ToolOrdinal, ToolCount, ToolsTracked;
    SomeTools(st, events, i);
    match event {
      case BlockDelta(block, InputJsonPiece(Some(_))) => OrdinalOfOwner(st, events, block, i);
      case _ =>
    }
  }

  lemma SomeTools(st: State, events: seq<Upstream>, i: nat)
    requires ToolsTracked(st, events) && i < |events| && StartsTool(events[i])
    ensures st.tools.count > 0
  {
    CountGrows(events, i, |events|);
    assert events[..|events|] == events;
  }

  lemma OrphanStep(st: State, block: Option<nat>, partial: string)
    requires !st.Closed() && st.tools == Tools(0, [], [], map[])
    ensures Step(st, BlockDelta(block, InputJsonPiece(Some(partial)))) == Send(st, [ArgumentsDelta("fc_0", 0, partial)])
  {
    assert Digits(0) == "0";
    assert "fc_" + "0" == "fc_0";
    assert st.(items := st.items) == st;
  }

  /** A piece that comes before any tool block goes out under the first made-up id, and nothing keeps it. */
  lemma OrphanPiece(id: string, model: string, before: seq<Upstream>, block: Option<nat>, partial: string)
    requires Ongoing(before) && ToolCount(before) == 0
    ensures var r := Run(Fresh(id, model), before);
      Run(Fresh(id, model), before + [BlockDelta(block, InputJsonPiece(Some(partial)))]) ==
      Reply(r.state.(sequence := r.state.sequence + 1),
            r.out + [Event(r.state.sequence, ArgumentsDelta("fc_0", 0, partial))])
  {
    hide Run, ToolCount, StartOf, Step;
    RunTools(id, model, before);
    var r, event := Run(Fresh(id, model), before), BlockDelta(block, InputJsonPiece(Some(partial)));
    RunAppend(Fresh(id, model), before, [event]);
    RunOne(r.state, event);
    NoOrdinals(r.state, before);
    OrphanStep(r.state, block, partial);
  }

  lemma {:induction false} NoStarts(events: seq<Upstream>, block: nat)
    requires ToolCount(events) == 0
    ensures StartOf(events, block).None?
  {
    if events != [] {
      NoStarts(events[..|events| - 1], block);
    }
  }

  lemma NoOrdinals(st: State, events: seq<Upstream>)
    requires ToolsTracked(st, events) && ToolCount(events) == 0
    ensures st.tools == Tools(0, [], [], map[])
  {
    forall block: nat ensures block !in st.tools.ordinals {
      NoStarts(events, block);
      assert match StartOf(events, block)
        case None => block !in st.tools.ordinals
        case Some(_) => true;
    }
  }

  /** The completed call of a tool block: its start input, then the pieces that belong to it. */
  ghost function ExpectedCall(id: string, events: seq<Upstream>, i: nat): Item
    requires i < |events| && StartsTool(events[i])
  {
    var block := events[i].block;
    var callId := ToolCallId(id, block.id, After(id, START, events[..i]).tools);
    FunctionCall("fc_" + callId, Status.Completed, callId, block.name, StartInput(block.input) + PiecesOf(events, i))
  }

  /** Parallel calls: in a well-formed stream of any interleaving, whether it ends in message_stop or is cut off once
      it has started, the completed call of a tool block holds its start input followed by exactly the pieces that
      belong to it, in order: those of its block index while it is the last block with that index, and those that
      name no tool block while it is the latest one. */
  lemma ToolArguments(id: string, model: string, events: seq<Upstream>, i: nat)
    requires WellFormed(id, START, events) && Ongoing(events) && i < |events| && StartsTool(events[i])
    ensures HasCall(Sent(id, model, events + [MessageStop]), ExpectedCall(id, events, i))
    ensures Run(Fresh(id, model), events).state.phase.started ==>
      HasCall(Sent(id, model, events), ExpectedCall(id, events, i))
  {
    hide Run, Held, WellFormed, Complete, HasCall, PiecesOf, ToolCallId, StartInput, ToolCount;
    CallInStream(id, model, events, i);
    RunTools(id, model, events);
    var r := Run(Fresh(id, model), events);
    var itemId, ordinal, item := StartedId(id, events, i), ToolCount(events[..i]), CallSoFar(id, events, i);
    CompleteHasCall(r.state, itemId, ordinal, item);
    HeldIsDeliverable(r.state, itemId, ordinal, item);
    RunAppend(Fresh(id, model), events, [MessageStop]);
    RunOne(r.state, MessageStop);
    CompleteCloses(r.state);
    assert Sent(id, model, events + [MessageStop]) == r.out + Complete(r.state).out + [];
    HasCallAfter(r.out, Complete(r.state).out, ExpectedCall(id, events, i));
    assert r.out + Complete(r.state).out + [] == r.out + Complete(r.state).out;
  }

  lemma HeldIsDeliverable(st: State, itemId: string, ordinal: nat, item: Item)
    requires Held(st, itemId, ordinal, item)
    ensures st.HasDeliverable()
  {}

  lemma CompleteCloses(st: State)
    requires !st.Closed()
    ensures Step(st, MessageStop) == Complete(st) && Complete(st).state.Closed()
  {
    CompleteEnds(st);
  }
}
