/** A compaction block comes out as one message with its start content and its pieces. */
module CompactionText {
  import opened Text
  import opened Protocol
  import opened TranslatorSpec
  import opened Chunking
  import opened Ledger
  import opened Lifecycle
  import opened TerminalOutput
  import opened Completion
  import opened Terminal
  import opened ToolRouting

  // ---------------------------------------------------------------- said of the events alone

  predicate StartsCompaction(event: Upstream) {
    event.BlockStart? && event.block.CompactionBlock?
  }

  function IndexIn(event: Upstream): nat
    requires StartsCompaction(event)
  {
    event.index.GetOr(0)
  }

  predicate StopsBlock(event: Upstream, index: nat) {
    event.BlockStop? && event.index.GetOr(0xFFFF_FFFF_FFFF_FFFF) == index
  }

  /** The block started at `i` has been stopped. */
  predicate Stopped(events: seq<Upstream>, i: nat)
    requires i < |events| && StartsCompaction(events[i])
  {
    exists j :: i < j < |events| && StopsBlock(events[j], IndexIn(events[i]))
  }

  function SummaryIn(event: Upstream): string {
    match event
    case BlockDelta(_, CompactionPiece(content)) => content.GetOr("")
    case _ => ""
  }

  /** The start content, then the pieces up to the stop of the block. */
  function Summary(events: seq<Upstream>, i: nat): string
    requires i < |events| && StartsCompaction(events[i])
    decreases |events|
  {
    var n := |events| - 1;
    if i == n then events[i].block.content.GetOr("")
    else Summary(events[..n], i) + if Stopped(events[..n], i) then "" else SummaryIn(events[n])
  }

  // ---------------------------------------------------------------- one block under way

  /** Its message is stored; open, it is the one being fed; done, it holds its text. */
  ghost predicate Holds(st: State, itemId: string, index: nat, text: string, open: bool) {
    var found := FindItem(st.items, itemId);
    && found.Some? && st.items[found.value].Message?
    && if open then
         st.cmp.itemId == Some(itemId) && st.cmp.active == Some(index) && st.cmp.text == text
         && !IsDone(st.items[found.value])
       else
         st.items[found.value] == Message(itemId, Status.Completed, Some(text))
         && !(st.cmp.itemId == Some(itemId) && st.cmp.active.Some?)
  }

  lemma ReplacedElsewhere(st: State, st1: State, id: string, change: Item -> Item, itemId: string, index: nat,
                          text: string, open: bool)
    requires Holds(st, itemId, index, text, open) && id != itemId && forall x :: change(x).id == x.id
    requires st1.items == Replace(st.items, id, change) && st1.cmp == st.cmp
    ensures Holds(st1, itemId, index, text, open)
  {
    ReplaceOther(st.items, id, change, itemId);
  }

  lemma SameStoreHolds(st: State, st1: State, itemId: string, index: nat, text: string, open: bool)
    requires Holds(st, itemId, index, text, open) && st1.items == st.items && st1.cmp == st.cmp
    ensures Holds(st1, itemId, index, text, open)
  {}

  /** Argument pieces go to calls. */
  lemma PieceHolds(st: State, b: Book, block: Option<nat>, partial: string, itemId: string, index: nat, text: string,
                   open: bool)
    requires Linked(st, b) && Holds(st, itemId, index, text, open)
    ensures Holds(ArgumentsPiece(st, block, partial).state, itemId, index, text, open)
  {
    hide Covered, CompactionLinked, TextLinked, ThinkingLinked, ItemsLinked;
    var ordinal, st1 := ToolOrdinal(st.tools, block), ArgumentsPiece(st, block, partial).state;
    if ordinal < |st.tools.itemIds| {
      var found := FindItem(st.items, st.tools.itemIds[ordinal]);
      assert found.Some? && st.items[found.value].FunctionCall?;
      ReplacedElsewhere(st, st1, st.tools.itemIds[ordinal], item => WithMoreArguments(item, partial), itemId, index,
                        text, open);
    }
  }

  lemma DeltaHolds(st: State, piece: string, itemId: string, index: nat, text: string, open: bool)
    requires Holds(st, itemId, index, text, open)
    requires !open ==> piece == "" || st.cmp.itemId != Some(itemId)
    ensures Holds(CompactionDelta(st, piece).state, itemId, index, if open then text + piece else text, open)
  {
    assert text + "" == text;
    if piece != "" && st.cmp.itemId.Some? {
      var joined := st.cmp.text + piece;
      if open {
        FindAfterReplace(st.items, itemId, item => WithText(item, joined), itemId);
      } else {
        ReplaceOther(st.items, st.cmp.itemId.value, item => WithText(item, joined), itemId);
      }
    }
  }

  lemma StartHolds(st: State, c: Check, event: Upstream, itemId: string, index: nat, text: string, open: bool)
    requires Holds(st, itemId, index, text, open) && CheckLinked(st, c) && itemId in c.ids
    requires event.BlockStart? && Admits(st.id, c, event)
    ensures Holds(Start(st, event.index, event.block).state, itemId, index, text, open)
  {
    hide InitialArguments;
    match event.block {
      case CompactionBlock(content) =>
        var x := CompactionItemId(st.id, event.index.GetOr(0));
        assert x == CompactionId(st, event.index.GetOr(0));
        var begun := OpenCompaction(st, event.index.GetOr(0)).state;
        FindAppended(st.items, Message(x, InProgress, None));
        assert Holds(begun, itemId, index, text, open);
        if content.Some? {
          DeltaHolds(begun, content.value, itemId, index, text, open);
        }
      case ToolUse(id, name, input) =>
        assert ToolId(st.id, id, c.tools) == "fc_" + CallId(st, id);
        var callId, initial := CallId(st, id), InitialArguments(input);
        var begun := OpenTool(st, event.index, callId, name).state;
        FindAppended(st.items, FunctionCall("fc_" + callId, InProgress, callId, name, ""));
        assert Holds(begun, itemId, index, text, open);
        if initial != "" {
          ReplacedElsewhere(begun, FirstArguments(begun, "fc_" + callId, st.next, initial).state, "fc_" + callId,
                            stored => WithArguments(stored, initial), itemId, index, text, open);
        }
      case OtherBlock =>
    }
  }

  lemma StopHolds(st: State, stop: Option<nat>, itemId: string, index: nat, text: string, open: bool)
    requires Holds(st, itemId, index, text, open)
    ensures Holds(OnStop(st, stop).state, itemId, index, text,
                  open && !StopsBlock(BlockStop(stop), index))
  {
    if st.cmp.active == Some(stop.GetOr(USIZE_MAX)) {
      var st1 := st.(cmp := st.cmp.(active := None));
      FindSameIds(st1.items, CloseCompaction(st1).state.items, itemId);
    }
  }

  lemma StepHolds(st: State, b: Book, c: Check, event: Upstream, itemId: string, index: nat, text: string, open: bool)
    requires Holds(st, itemId, index, text, open) && Linked(st, b) && CheckLinked(st, c) && itemId in c.ids
    requires !st.Closed() && !EndsStream(event) && Admits(st.id, c, event)
    ensures Holds(Step(st, event).state, itemId, index, if open then text + SummaryIn(event) else text,
                  open && !StopsBlock(event, index))
  {
    hide Linked, Start, CompactionDelta, ArgumentsPiece, Holds, OnStop;
    assert text + "" == text;
    match event {
      case BlockDelta(_, CompactionPiece(Some(piece))) =>
        StoppedIsNotFed(st, c, itemId, index, text, open);
        DeltaHolds(st, piece, itemId, index, text, open);
      case BlockDelta(block, InputJsonPiece(Some(partial))) =>
        PieceHolds(st, b, block, partial, itemId, index, text, open);
      case BlockStart(_, _) => StartHolds(st, c, event, itemId, index, text, open);
      case BlockStop(stop) => StopHolds(st, stop, itemId, index, text, open);
      case _ => SameStoreHolds(st, Step(st, event).state, itemId, index, text, open);
    }
  }

  /** A stopped block is not fed by what is admitted. */
  lemma StoppedIsNotFed(st: State, c: Check, itemId: string, index: nat, text: string, open: bool)
    requires Holds(st, itemId, index, text, open) && CheckLinked(st, c)
    ensures !open && !c.phase.Stopped? ==> st.cmp.itemId != Some(itemId)
  {}

  lemma OpenHolds(st: State, index: nat, content: Option<string>)
    requires FindItem(st.items, CompactionId(st, index)).None?
    ensures Holds(StartCompaction(st, index, content).state, CompactionId(st, index), index, content.GetOr(""), true)
  {
    hide CompactionId;
    var begun := OpenCompaction(st, index).state;
    FindAppended(st.items, Message(CompactionId(st, index), InProgress, None));
    if content.Some? {
      DeltaHolds(begun, content.value, CompactionId(st, index), index, "", true);
      assert "" + content.value == content.value;
    }
  }

  // ---------------------------------------------------------------- the terminal object

  lemma {:induction false} ClosingHolds(st: State, items: seq<Item>, p: nat, itemId: string, index: nat, text: string,
                                        open: bool)
    requires p <= |items| && Holds(st, itemId, index, text, open)
    requires open ==> exists k :: p <= k < |items| && items[k].id == itemId && !IsDone(items[k])
    ensures Holds(CloseItemsFrom(st, items, p).state, itemId, index, text, false)
      || Closes(CloseItemsFrom(st, items, p).state, itemId, text)
    decreases |items| - p
  {
    hide CloseCompaction;
    if p < |items| {
      var one := CloseItem(st, items[p], p).state;
      CloseCompactionHolds(st, itemId, index, text, open);
      if open && items[p].id == itemId && !IsDone(items[p]) {
        ClosedStays(one, items, p + 1, itemId, text);
      } else {
        OtherCloses(st, items[p], p, itemId, index, text, open);
        ClosingHolds(one, items, p + 1, itemId, index, text, open);
      }
    }
  }

  /** The stored message is completed with its text. */
  predicate Closes(st: State, itemId: string, text: string) {
    var found := FindItem(st.items, itemId);
    found.Some? && st.items[found.value] == Message(itemId, Status.Completed, Some(text))
  }

  lemma CloseCompactionHolds(st: State, itemId: string, index: nat, text: string, open: bool)
    requires Holds(st, itemId, index, text, open)
    ensures Closes(CloseCompaction(st).state, itemId, text)
  {
    FindSameIds(st.items, CloseCompaction(st).state.items, itemId);
  }

  lemma OtherCloses(st: State, item: Item, p: nat, itemId: string, index: nat, text: string, open: bool)
    requires Holds(st, itemId, index, text, open) && !(open && item.id == itemId && !IsDone(item))
    ensures Holds(CloseItem(st, item, p).state, itemId, index, text, open)
  {
    FindSameIds(st.items, CloseCompaction(st).state.items, itemId);
  }

  lemma {:induction false} ClosedStays(st: State, items: seq<Item>, p: nat, itemId: string, text: string)
    requires p <= |items| && Closes(st, itemId, text)
    ensures Closes(CloseItemsFrom(st, items, p).state, itemId, text)
    decreases |items| - p
  {
    hide CloseCompaction;
    if p < |items| {
      ClosedByOne(st, itemId, text);
      ClosedStays(CloseItem(st, items[p], p).state, items, p + 1, itemId, text);
    }
  }

  lemma ClosedByOne(st: State, itemId: string, text: string)
    requires Closes(st, itemId, text)
    ensures Closes(CloseCompaction(st).state, itemId, text)
  {
    FindSameIds(st.items, CloseCompaction(st).state.items, itemId);
  }

  lemma CompleteHasSummary(st: State, itemId: string, index: nat, text: string, open: bool)
    requires !st.Closed() && Holds(st, itemId, index, text, open)
    ensures HasCall(Complete(st).out, Message(itemId, Status.Completed, Some(text)))
  {
    hide CloseItemsFrom, FinalOutput;
    var closing := CloseText(st.(phase := st.phase.(finished := true))).state;
    assert Holds(closing, itemId, index, text, open);
    ClosingHolds(closing, closing.items, 0, itemId, index, text, open);
    var closed := CloseItemsFrom(closing, closing.items, 0).state;
    StoredIsFinal(closed, FindItem(closed.items, itemId).value);
  }

  // ---------------------------------------------------------------- whole streams

  function SummaryId(id: string, events: seq<Upstream>, i: nat): string
    requires i < |events| && StartsCompaction(events[i])
  {
    CompactionItemId(id, IndexIn(events[i]))
  }

  lemma {:induction false} SummaryInStream(id: string, model: string, events: seq<Upstream>, i: nat)
    requires WellFormed(id, START, events) && Ongoing(events) && i < |events| && StartsCompaction(events[i])
    ensures Holds(Run(Fresh(id, model), events).state, SummaryId(id, events, i), IndexIn(events[i]),
                  Summary(events, i), !Stopped(events, i))
    ensures SummaryId(id, events, i) in After(id, START, events).ids
    ensures !Run(Fresh(id, model), events).state.Closed()
    decreases |events|
  {
    hide Step, Linked, CheckLinked, Observe, Holds, WellFormed, Run, Admits, Digits;
    var n := |events| - 1;
    var before, last := events[..n], events[n];
    assert events == before + [last];
    WellFormedSplits(id, START, before, [last]);
    var c := After(id, START, before);
    LastAdmitted(id, c, last);
    FreshLinked(id, model);
    ManyMore(Fresh(id, model), BLANK_BOOK, START, before);
    RunAppend(Fresh(id, model), before, [last]);
    var r := Run(Fresh(id, model), before);
    RunOne(r.state, last);
    AfterMore(id, START, before, last);
    StepAll(r.state, c, last);
    IdsStay(id, c, last);
    if i == n {
      NewSummary(id, r.state, c, last);
      assert !Stopped(events, i);
    } else {
      SummaryInStream(id, model, before, i);
      StepHolds(r.state, Observe(BLANK_BOOK, r.out), c, last, SummaryId(id, before, i), IndexIn(events[i]),
                Summary(before, i), !Stopped(before, i));
      StoppedNext(events, i);
      assert Summary(before, i) + "" == Summary(before, i);
    }
  }

  lemma NewSummary(id: string, st: State, c: Check, event: Upstream)
    requires CheckLinked(st, c) && !st.Closed() && st.id == id && StartsCompaction(event) && Admits(id, c, event)
    ensures Holds(Step(st, event).state, CompactionItemId(id, IndexIn(event)), IndexIn(event),
                  event.block.content.GetOr(""), true)
    ensures CompactionItemId(id, IndexIn(event)) in Next(id, c, event).ids
  {
    hide Holds, StartCompaction;
    var index := IndexIn(event);
    assert CompactionItemId(id, index) == CompactionId(st, index);
    FreshInItems(st, c, CompactionItemId(id, index));
    OpenHolds(st, index, event.block.content);
  }

  lemma StoppedNext(events: seq<Upstream>, i: nat)
    requires i < |events| - 1 && StartsCompaction(events[i])
    ensures var n := |events| - 1;
      Stopped(events, i) <==> Stopped(events[..n], i) || StopsBlock(events[n], IndexIn(events[i]))
  {
    var n := |events| - 1;
    if Stopped(events[..n], i) {
      var j :| i < j < n && StopsBlock(events[..n][j], IndexIn(events[i]));
      assert StopsBlock(events[j], IndexIn(events[i]));
    }
    if j :| i < j < |events| && StopsBlock(events[j], IndexIn(events[i])) {
      assert j < n ==> StopsBlock(events[..n][j], IndexIn(events[i]));
    }
  }

  /** In a well-formed stream, stopped by `message_stop` or cut off once it has started, every compaction block comes
      out as one message: its start content, then its pieces up to its stop, in order. */
  lemma CompactionsAreWhole(id: string, model: string, events: seq<Upstream>, i: nat)
    requires WellFormed(id, START, events) && Ongoing(events) && i < |events| && StartsCompaction(events[i])
    ensures var message := Message(SummaryId(id, events, i), Status.Completed, Some(Summary(events, i)));
      && HasCall(Sent(id, model, events + [MessageStop]), message)
      && (Run(Fresh(id, model), events).state.phase.started ==> HasCall(Sent(id, model, events), message))
  {
    hide Run, Holds, WellFormed, Complete, HasCall, Summary, Digits, Stopped;
    SummaryInStream(id, model, events, i);
    var r := Run(Fresh(id, model), events);
    var itemId, index := SummaryId(id, events, i), IndexIn(events[i]);
    var message := Message(itemId, Status.Completed, Some(Summary(events, i)));
    CompleteHasSummary(r.state, itemId, index, Summary(events, i), !Stopped(events, i));
    SummaryIsDeliverable(r.state, itemId, index, Summary(events, i), !Stopped(events, i));
    RunAppend(Fresh(id, model), events, [MessageStop]);
    RunOne(r.state, MessageStop);
    CompleteCloses(r.state);
    assert Sent(id, model, events + [MessageStop]) == r.out + Complete(r.state).out + [];
    HasCallAfter(r.out, Complete(r.state).out, message);
    assert r.out + Complete(r.state).out + [] == r.out + Complete(r.state).out;
  }

  lemma SummaryIsDeliverable(st: State, itemId: string, index: nat, text: string, open: bool)
    requires Holds(st, itemId, index, text, open)
    ensures st.HasDeliverable()
  {}
}
