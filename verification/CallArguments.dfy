/** The arguments of every call in a terminal object are the argument pieces sent under its item id. */
module CallArguments {
  import opened Text
  import opened Protocol
  import opened TranslatorSpec
  import opened Chunking
  import opened Ledger
  import opened Lifecycle
  import opened TerminalOutput
  import opened Completion
  import opened Terminal
  import opened ToolRouting

  // ---------------------------------------------------------------- said of the frames alone

  function ArgumentsIn(f: Frame, itemId: string): string {
    if f.Event? && f.body.ArgumentsDelta? && f.body.itemId == itemId then f.body.delta else ""
  }

  /** The argument pieces sent under an item id, joined. */
  function Joined(frames: seq<Frame>, itemId: string): string {
    if frames == [] then "" else ArgumentsIn(frames[0], itemId) + Joined(frames[1..], itemId)
  }

  function OutputAt(frames: seq<Frame>, j: nat): seq<Item>
    requires EndsAt(frames, j)
  {
    match frames[j].body
    case CompletedBody(response) => response.output
    case IncompleteBody(response) => response.output
    case FailedBody(response, _, _) => response.output
  }

  /** Each call of each terminal object holds what was sent for it. */
  ghost predicate SentWhole(frames: seq<Frame>) {
    forall j: nat, call :: EndsAt(frames, j) && call in OutputAt(frames, j) && call.FunctionCall? ==>
      call.arguments == Joined(frames, call.id)
  }

  lemma {:induction false} JoinedThen(a: seq<Frame>, b: seq<Frame>, itemId: string)
    ensures Joined(a + b, itemId) == Joined(a, itemId) + Joined(b, itemId)
  {
    hide ArgumentsIn;
    if a == [] {
      assert a + b == b;
    } else {
      JoinedThen(a[1..], b, itemId);
      assert (a + b)[0] == a[0] && (a + b)[1..] == a[1..] + b;
      var x, y, z := ArgumentsIn(a[0], itemId), Joined(a[1..], itemId), Joined(b, itemId);
      assert x + (y + z) == (x + y) + z;
    }
  }

  predicate NoArguments(frames: seq<Frame>) {
    forall k :: 0 <= k < |frames| ==> !(frames[k].Event? && frames[k].body.ArgumentsDelta?)
  }

  lemma {:induction false} JoinedNothing(frames: seq<Frame>, itemId: string)
    requires NoArguments(frames)
    ensures Joined(frames, itemId) == ""
  {
    if frames != [] {
      JoinedNothing(frames[1..], itemId);
    }
  }

  lemma NothingMore(sent: seq<Frame>, out: seq<Frame>, itemId: string)
    requires NoArguments(out)
    ensures Joined(sent + out, itemId) == Joined(sent, itemId)
  {
    JoinedThen(sent, out, itemId);
    JoinedNothing(out, itemId);
  }

  // ---------------------------------------------------------------- the stored calls

  ghost predicate Kept(st: State, sent: seq<Frame>) {
    && (forall i :: 0 <= i < |st.items| && st.items[i].FunctionCall? ==>
          st.items[i].arguments == Joined(sent, st.items[i].id))
    && (forall x :: FindItem(st.items, x).None? ==> Joined(sent, x) == "")
  }

  predicate SameCall(a: Item, b: Item) {
    && b.id == a.id && (b.FunctionCall? <==> a.FunctionCall?)
    && (a.FunctionCall? ==> b.arguments == a.arguments)
  }

  /** The stored calls are what they were; what is added is no call. */
  ghost predicate SameCalls(items: seq<Item>, items1: seq<Item>) {
    && |items1| >= |items|
    && (forall i :: 0 <= i < |items| ==> SameCall(items[i], items1[i]))
    && (forall i :: |items| <= i < |items1| ==> !items1[i].FunctionCall?)
  }

  lemma QuietKept(st: State, r: Reply, sent: seq<Frame>)
    requires Kept(st, sent) && SameCalls(st.items, r.state.items) && NoArguments(r.out)
    ensures Kept(r.state, sent + r.out)
  {
    hide Joined, NoArguments;
    forall x ensures Joined(sent + r.out, x) == Joined(sent, x) {
      NothingMore(sent, r.out, x);
    }
    assert forall i :: 0 <= i < |st.items| ==> r.state.items[i].id == st.items[i].id;
  }

  lemma OnePiece(sent: seq<Frame>, f: Frame, itemId: string)
    ensures Joined(sent + [f], itemId) == Joined(sent, itemId) + ArgumentsIn(f, itemId)
  {
    JoinedThen(sent, [f], itemId);
    assert Joined([f], itemId) == ArgumentsIn(f, itemId) + Joined([f][1..], itemId);
    assert [f][1..] == [];
    assert ArgumentsIn(f, itemId) + "" == ArgumentsIn(f, itemId);
  }

  /** A piece that reaches the one stored item of its id. */
  lemma GrownKept(st: State, st1: State, sent: seq<Frame>, f: Frame, found: nat)
    requires Kept(st, sent) && found < |st.items| && st.items[found].FunctionCall?
    requires f.Event? && f.body.ArgumentsDelta? && f.body.itemId == st.items[found].id
    requires forall i :: 0 <= i < |st.items| && i != found ==> st.items[i].id != st.items[found].id
    requires st1.items == st.items[found := st.items[found].(arguments := st.items[found].arguments + f.body.delta)]
    ensures Kept(st1, sent + [f])
  {
    hide Joined;
    forall x ensures Joined(sent + [f], x) == Joined(sent, x) + ArgumentsIn(f, x) {
      OnePiece(sent, f, x);
    }
    forall x | x != f.body.itemId ensures Joined(sent + [f], x) == Joined(sent, x) {
      assert Joined(sent, x) + "" == Joined(sent, x);
    }
    forall x | FindItem(st1.items, x).None? ensures FindItem(st.items, x).None? && x != f.body.itemId {
      FindSameIds(st.items, st1.items, x);
    }
  }

  /** The one stored call an argument piece goes to. */
  lemma PieceTarget(st: State, b: Book, block: Option<nat>) returns (found: nat)
    requires Linked(st, b) && st.tools.count > 0
    ensures var ordinal := ToolOrdinal(st.tools, block);
      && ordinal < |st.tools.itemIds| && found < |st.items| && st.items[found].FunctionCall?
      && FindItem(st.items, st.tools.itemIds[ordinal]) == Some(found) && st.items[found].id == st.tools.itemIds[ordinal]
    ensures forall i :: 0 <= i < |st.items| && i != found ==> st.items[i].id != st.items[found].id
  {
    hide Covered, CompactionLinked, TextLinked, ThinkingLinked, ItemLinked;
    found := FindItem(st.items, st.tools.itemIds[ToolOrdinal(st.tools, block)]).value;
  }

  lemma PieceKept(st: State, b: Book, sent: seq<Frame>, block: Option<nat>, partial: string)
    requires Linked(st, b) && Kept(st, sent) && st.tools.count > 0
    ensures var r := ArgumentsPiece(st, block, partial); Kept(r.state, sent + r.out)
  {
    hide Linked, Kept, ToolOrdinal, FindItem;
    var found := PieceTarget(st, b, block);
    var r := ArgumentsPiece(st, block, partial);
    assert r.out == [r.out[0]];
    GrownKept(st, r.state, sent, r.out[0], found);
  }

  lemma OpenKept(st: State, sent: seq<Frame>, index: Option<nat>, callId: string, name: string)
    requires Kept(st, sent) && FindItem(st.items, "fc_" + callId).None?
    ensures var r := OpenTool(st, index, callId, name); Kept(r.state, sent + r.out)
  {
    hide Joined;
    var r := OpenTool(st, index, callId, name);
    assert NoArguments(r.out);
    forall x ensures Joined(sent + r.out, x) == Joined(sent, x) {
      NothingMore(sent, r.out, x);
    }
    assert forall i :: 0 <= i < |st.items| ==> r.state.items[i].id == st.items[i].id;
  }

  lemma StartToolKept(st: State, b: Book, sent: seq<Frame>, index: Option<nat>, id: Option<string>, name: string,
                      input: Option<string>)
    requires Linked(st, b) && Kept(st, sent) && FindItem(st.items, "fc_" + CallId(st, id)).None?
    ensures var r := StartTool(st, index, id, name, input); Kept(r.state, sent + r.out)
  {
    hide Linked, Kept, Joined, CallId, InitialArguments;
    var callId, initial := CallId(st, id), InitialArguments(input);
    var begun := OpenTool(st, index, callId, name);
    var item := FunctionCall("fc_" + callId, InProgress, callId, name, "");
    OpenKept(st, sent, index, callId, name);
    FindAppended(st.items, item);
    var more := FirstArguments(begun.state, "fc_" + callId, st.next, initial);
    if initial == "" {
      assert begun.out + [] == begun.out;
    } else {
      assert more.out == [more.out[0]];
      assert "" + initial == initial;
      GrownKept(begun.state, more.state, sent + begun.out, more.out[0], |st.items|);
      assert (sent + begun.out) + more.out == sent + (begun.out + more.out);
    }
  }

  lemma StartCompactionKept(st: State, sent: seq<Frame>, index: nat, content: Option<string>)
    requires Kept(st, sent)
    ensures var r := StartCompaction(st, index, content); Kept(r.state, sent + r.out)
  {
    hide Kept, CompactionId;
    QuietKept(st, StartCompaction(st, index, content), sent);
  }

  lemma ToolsCounted(st: State, c: Check)
    requires CheckLinked(st, c)
    ensures c.tools == st.tools.count
  {}

  lemma SameToolId(st: State, c: Check, id: Option<string>)
    requires c.tools == st.tools.count
    ensures ToolId(st.id, id, c.tools) == "fc_" + CallId(st, id)
  {}

  /** One admitted event that does not end the stream. */
  lemma StepKept(st: State, b: Book, c: Check, sent: seq<Frame>, event: Upstream)
    requires Linked(st, b) && CheckLinked(st, c) && !st.Closed() && Kept(st, sent)
    requires Admits(st.id, c, event) && !EndsStream(event)
    ensures var r := Step(st, event); Kept(r.state, sent + r.out)
  {
    hide Kept, Linked, ArgumentsPiece, StartTool, StartCompaction, Complete, FailWith, InitialArguments;
    hide CheckLinked, FindItem, ToolCallId, CallId, CompactionItemId;
    ToolsCounted(st, c);
    match event {
      case BlockDelta(index, InputJsonPiece(Some(partial))) => PieceKept(st, b, sent, index, partial);
      case BlockStart(index, CompactionBlock(content)) => StartCompactionKept(st, sent, index.GetOr(0), content);
      case BlockStart(index, ToolUse(id, name, input)) =>
        SameToolId(st, c, id);
        FreshInItems(st, c, ToolId(st.id, id, c.tools));
        StartToolKept(st, b, sent, index, id, name, input);
      case _ => QuietKept(st, Step(st, event), sent);
    }
  }

  // ---------------------------------------------------------------- the terminal object

  lemma SameCallsThen(a: seq<Item>, b: seq<Item>, c: seq<Item>)
    requires SameCalls(a, b) && SameCalls(b, c)
    ensures SameCalls(a, c)
  {}

  lemma {:induction false} ClosingFromKept(st: State, items: seq<Item>, p: nat)
    requires p <= |items|
    ensures var r := CloseItemsFrom(st, items, p); SameCalls(st.items, r.state.items) && NoArguments(r.out)
    decreases |items| - p
  {
    hide SameCalls, NoArguments;
    if p < |items| {
      ClosingOneKept(st, items[p], p);
      var one := CloseItem(st, items[p], p);
      ClosingFromKept(one.state, items, p + 1);
      var rest := CloseItemsFrom(one.state, items, p + 1);
      SameCallsThen(st.items, one.state.items, rest.state.items);
      NoArgumentsThen(one.out, rest.out);
    } else {
      ClosingNothing(st);
    }
  }

  lemma NoArgumentsThen(a: seq<Frame>, b: seq<Frame>)
    requires NoArguments(a) && NoArguments(b)
    ensures NoArguments(a + b)
  {}

  lemma ClosingNothing(st: State)
    ensures SameCalls(st.items, st.items) && NoArguments([])
  {}

  lemma ClosingOneKept(st: State, item: Item, p: nat)
    ensures var r := CloseItem(st, item, p); SameCalls(st.items, r.state.items) && NoArguments(r.out)
  {}

  lemma ClosingKept(st: State)
    ensures var r := CloseOpenItems(st); SameCalls(st.items, r.state.items) && NoArguments(r.out)
  {
    hide CloseItemsFrom, SameCalls, NoArguments;
    var text := CloseText(st);
    ClosingFromKept(text.state, text.state.items, 0);
    TextKept(st);
    SameCallsThen(st.items, text.state.items, CloseOpenItems(st).state.items);
    NoArgumentsThen(text.out, CloseItemsFrom(text.state, text.state.items, 0).out);
  }

  lemma TextKept(st: State)
    ensures var r := CloseText(st); SameCalls(st.items, r.state.items) && NoArguments(r.out)
  {}

  /** Every call of a terminal object is a stored one, completed. */
  lemma FinalIsStored(st: State, call: Item) returns (i: nat)
    requires call in FinalOutput(st) && call.FunctionCall?
    ensures i < |st.items| && call == AsCompleted(st.items[i])
  {
    hide Sorted, ItemsOf, ItemIndex;
    var reasoning := ReasoningEntries(st);
    var text := TextEntries(st, |reasoning|);
    var order := |reasoning| + |text|;
    ItemEntriesAt(st, 0, order);
    SortedKeeps(Entries(st), call);
    var j := InItemsOf(Entries(st), call);
    NoCallBefore(st);
    i := j - order;
  }

  /** Before the stored items come reasoning and text. */
  lemma NoCallBefore(st: State)
    ensures var order := |ReasoningEntries(st)| + |TextEntries(st, |ReasoningEntries(st)|)|;
      |Entries(st)| >= order && forall k :: 0 <= k < order ==> !Entries(st)[k].item.FunctionCall?
  {
    hide ItemEntries;
  }

  lemma FinalKept(st: State, sent: seq<Frame>, call: Item)
    requires Kept(st, sent) && call in FinalOutput(st) && call.FunctionCall?
    ensures call.arguments == Joined(sent, call.id)
  {
    hide FinalOutput, Joined;
    var i := FinalIsStored(st, call);
  }

  predicate NoTerminal(frames: seq<Frame>) {
    forall j :: 0 <= j < |frames| ==> !EndsAt(frames, j)
  }

  /** The last frames: one terminal object of this state's items, and the closing mark. */
  lemma LastWhole(st: State, sent: seq<Frame>, body: Body)
    requires Kept(st, sent) && NoTerminal(sent)
    requires body.Terminal() && OutputAt([Event(0, body)], 0) == FinalOutput(st)
    ensures SentWhole(sent + Finally(st, body).out)
  {
    hide Kept, Joined, FinalOutput;
    var last := Finally(st, body).out;
    var all := sent + last;
    forall j: nat, call | EndsAt(all, j) && call in OutputAt(all, j) && call.FunctionCall?
      ensures call.arguments == Joined(all, call.id)
    {
      assert forall k :: 0 <= k < |sent| ==> EndsAt(all, k) == EndsAt(sent, k);
      assert all[j] == last[j - |sent|];
      NothingMore(sent, last, call.id);
      FinalKept(st, sent, call);
    }
  }

  lemma NoTerminalThen(sent: seq<Frame>, out: seq<Frame>, first: nat)
    requires NoTerminal(sent) && PlainRun(out, first)
    ensures NoTerminal(sent + out)
  {
    forall j | 0 <= j < |sent + out| ensures !EndsAt(sent + out, j) {
      if j < |sent| {
        assert !EndsAt(sent, j);
      } else {
        assert Plain(out[j - |sent|], first + (j - |sent|));
      }
    }
  }

  lemma CompleteWhole(st: State, sent: seq<Frame>)
    requires !st.Closed() && Kept(st, sent) && NoTerminal(sent)
    ensures SentWhole(sent + Complete(st).out)
  {
    hide Kept, NoTerminal, SentWhole, FinalOutput, CloseOpenItems;
    var marked := st.(phase := st.phase.(finished := true));
    var closed := CloseOpenItems(marked);
    ClosingKept(marked);
    CloseGoes(marked);
    var sent1 := sent + closed.out;
    SameItemsKept(st, marked, sent);
    QuietKept(marked, closed, sent);
    NoTerminalThen(sent, closed.out, marked.sequence);
    var output := FinalOutput(closed.state);
    var body := if st.stopReason == Some("max_tokens")
                then IncompleteBody(closed.state.Base(IncompleteResponse, output))
                else CompletedBody(closed.state.Base(CompletedResponse, output));
    LastWhole(closed.state, sent1, body);
    assert sent + Complete(st).out == sent1 + Finally(closed.state, body).out;
  }

  lemma SameItemsKept(st: State, st1: State, sent: seq<Frame>)
    requires Kept(st, sent) && st1.items == st.items
    ensures Kept(st1, sent)
  {}

  lemma FailWhole(st: State, sent: seq<Frame>, kind: string, message: string)
    requires !st.Closed() && Kept(st, sent) && NoTerminal(sent)
    ensures SentWhole(sent + FailWith(st, kind, message).out)
  {
    hide Kept, NoTerminal, SentWhole, FinalOutput, Joined;
    var begun := Announce(st);
    var ended := begun.state.(phase := begun.state.phase.(finished := true, failed := true,
                                                           failedKind := Some(kind), failedMessage := Some(message)));
    var body := FailedBody(ended.Base(FailedResponse, FinalOutput(ended)), Some(kind), message);
    AnnounceQuiet(st);
    QuietKept(st, begun, sent);
    SameItemsKept(begun.state, ended, sent + begun.out);
    NoTerminalThen(sent, begun.out, st.sequence);
    LastWhole(ended, sent + begun.out, body);
    assert sent + FailWith(st, kind, message).out == (sent + begun.out) + Finally(ended, body).out;
  }

  lemma AnnounceQuiet(st: State)
    ensures var r := Announce(st); SameCalls(st.items, r.state.items) && NoArguments(r.out) && Goes(st, r)
  {}

  // ---------------------------------------------------------------- whole streams

  /** Open: the link, the stored calls, and nothing terminal so far. Closed: every terminal object is whole. */
  ghost predicate SoFar(st: State, c: Check, sent: seq<Frame>) {
    if st.Closed() then SentWhole(sent)
    else Kept(st, sent) && NoTerminal(sent) && CheckLinked(st, c) && Linked(st, Observe(BLANK_BOOK, sent))
  }

  lemma StepSoFar(st: State, c: Check, sent: seq<Frame>, event: Upstream)
    requires SoFar(st, c, sent) && !st.Closed() && Admits(st.id, c, event)
    ensures var r := Step(st, event);
      && SoFar(r.state, Next(st.id, c, event), sent + r.out)
      && r.state.Closed() == EndsStream(event) && (!r.state.Closed() ==> r.state.id == st.id)
  {
    hide Kept, NoTerminal, SentWhole, Linked, CheckLinked, Observe, Admits, Next, Complete, FailWith;
    StepShape(st, event);
    if EndsStream(event) {
      match event {
        case MessageStop => CompleteWhole(st, sent);
        case ErrorEvent(kind, message) =>
          FailWhole(st, sent, kind.GetOr("api_error"), message.GetOr("upstream error"));
      }
    } else {
      var r, b := Step(st, event), Observe(BLANK_BOOK, sent);
      StepKept(st, b, c, sent, event);
      NoTerminalThen(sent, r.out, st.sequence);
      OneMore(st, b, c, event);
      ObserveThen(BLANK_BOOK, sent, r.out);
    }
  }

  lemma {:induction false} RunSoFar(st: State, c: Check, sent: seq<Frame>, events: seq<Upstream>) returns (c1: Check)
    requires SoFar(st, c, sent) && (!st.Closed() ==> WellFormed(st.id, c, events))
    ensures var r := Run(st, events); SoFar(r.state, c1, sent + r.out)
    decreases |events|
  {
    hide SoFar, Step, Admits, Next;
    if events == [] {
      c1 := c;
      assert sent + [] == sent;
    } else if st.Closed() {
      StaysClosed(st, events[0]);
      assert sent + [] == sent;
      c1 := RunSoFar(st, c, sent, events[1..]);
      assert [] + Run(st, events[1..]).out == Run(st, events[1..]).out;
    } else {
      var first := Step(st, events[0]);
      StepSoFar(st, c, sent, events[0]);
      c1 := RunSoFar(first.state, Next(st.id, c, events[0]), sent + first.out, events[1..]);
      var rest := Run(first.state, events[1..]);
      assert (sent + first.out) + rest.out == sent + (first.out + rest.out);
    }
  }

  lemma StaysClosed(st: State, event: Upstream)
    requires st.Closed()
    ensures Step(st, event) == Silent(st)
  {}

  lemma WrapSoFar(st: State, c: Check, sent: seq<Frame>)
    requires SoFar(st, c, sent)
    ensures SentWhole(sent + Wrap(st).out)
  {
    hide Kept, Linked, CheckLinked, Observe, Complete, FailWith, OutputAt;
    if st.phase.started && !st.Closed() {
      if st.HasDeliverable() {
        CompleteWhole(st, sent);
      } else {
        FailWhole(st, sent, "api_error", "upstream stream ended without completion");
      }
    } else {
      assert sent + [] == sent;
    }
  }

  /** In every well-formed stream, whether it completes, fails or is cut off: each call of the terminal object holds
      exactly the argument pieces sent under its item id, in order. */
  lemma ArgumentsAreTheirPieces(id: string, model: string, events: seq<Upstream>, j: nat, call: Item)
    requires WellFormed(id, START, events)
    requires EndsAt(Sent(id, model, events), j) && call in OutputAt(Sent(id, model, events), j) && call.FunctionCall?
    ensures call.arguments == Joined(Sent(id, model, events), call.id)
  {
    hide Run, Wrap, Joined, WellFormed;
    var st := Fresh(id, model);
    FreshLinked(id, model);
    NothingSoFar(id, model);
    var c := RunSoFar(st, START, [], events);
    var r := Run(st, events);
    assert [] + r.out == r.out;
    WrapSoFar(r.state, c, r.out);
  }

  lemma NothingSoFar(id: string, model: string)
    ensures SoFar(Fresh(id, model), START, [])
  {
    hide Linked, CheckLinked;
    FreshLinked(id, model);
    ObserveNothing(BLANK_BOOK);
  }
}
