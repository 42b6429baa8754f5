/** Two tool blocks that end up with one item id are always refused: their stream breaks the item life cycle. */
module RepeatedCalls {
  import opened Text
  import opened Protocol
  import opened TranslatorSpec
  import opened Chunking
  import opened Ledger
  import opened Lifecycle
  import opened Completion
  import opened Terminal
  import opened ToolRouting

  // ---------------------------------------------------------------- stored calls stay

  /** A compaction is never taken for a call. */
  ghost predicate Apart(st: State) {
    && (st.cmp.itemId.Some? ==> st.cmp.itemId.value != "" && st.cmp.itemId.value[0] == 'm')
    && (forall p :: 0 <= p < |st.items| && st.items[p].FunctionCall? ==>
          st.items[p].id != "" && st.items[p].id[0] == 'f')
  }

  /** An open call of this id is stored at `p`. */
  predicate OpenCall(st: State, p: nat, x: string) {
    p < |st.items| && st.items[p].FunctionCall? && st.items[p].id == x && !IsDone(st.items[p])
  }

  /** Open calls stay open where they are, and tool ids stay known. */
  ghost predicate CallsStay(st: State, st1: State) {
    && (forall p: nat, x :: OpenCall(st, p, x) ==> OpenCall(st1, p, x))
    && st.tools.itemIds <= st1.tools.itemIds
    && |st.items| <= |st1.items|
  }

  ghost predicate Steady(st: State, st1: State) {
    Apart(st1) && CallsStay(st, st1)
  }

  lemma SteadyThen(a: State, b: State, c: State)
    requires Steady(a, b) && Steady(b, c)
    ensures Steady(a, c)
  {
    hide Apart, OpenCall;
  }

  lemma CloseCompactionSteady(st: State)
    requires Apart(st)
    ensures Steady(st, CloseCompaction(st).state) && CloseCompaction(st).state.tools == st.tools
  {}

  lemma CompactionDeltaSteady(st: State, text: string)
    requires Apart(st)
    ensures Steady(st, CompactionDelta(st, text).state)
  {}

  lemma PieceSteady(st: State, block: Option<nat>, partial: string)
    requires Apart(st)
    ensures Steady(st, ArgumentsPiece(st, block, partial).state)
  {}

  lemma StartCompactionSteady(st: State, index: nat, content: Option<string>)
    requires Apart(st)
    ensures Steady(st, StartCompaction(st, index, content).state)
  {
    hide Apart, CompactionDelta, CallsStay, OpenCompaction;
    var begun := OpenCompaction(st, index).state;
    OpenCompactionSteady(st, index);
    if content.Some? {
      CompactionDeltaSteady(begun, content.value);
      SteadyThen(st, begun, CompactionDelta(begun, content.value).state);
    }
  }

  lemma OpenCompactionSteady(st: State, index: nat)
    requires Apart(st)
    ensures Steady(st, OpenCompaction(st, index).state)
  {
    assert CompactionId(st, index)[0] == 'm';
  }

  lemma OpenToolSteady(st: State, index: Option<nat>, callId: string, name: string)
    requires Apart(st)
    ensures Steady(st, OpenTool(st, index, callId, name).state)
    ensures OpenCall(OpenTool(st, index, callId, name).state, |st.items|, "fc_" + callId)
    ensures "fc_" + callId in OpenTool(st, index, callId, name).state.tools.itemIds
  {}

  lemma FirstArgumentsSteady(st: State, itemId: string, output: nat, initial: string)
    requires Apart(st)
    ensures Steady(st, FirstArguments(st, itemId, output, initial).state)
  {}

  lemma StartToolSteady(st: State, index: Option<nat>, id: Option<string>, name: string, input: Option<string>)
    requires Apart(st)
    ensures var st1 := StartTool(st, index, id, name, input).state; var x := "fc_" + CallId(st, id);
      Steady(st, st1) && OpenCall(st1, |st.items|, x) && x in st1.tools.itemIds
  {
    hide Apart, CallsStay, OpenTool, FirstArguments, OpenCall, CallId, InitialArguments;
    var callId, initial := CallId(st, id), InitialArguments(input);
    var begun := OpenTool(st, index, callId, name).state;
    OpenToolSteady(st, index, callId, name);
    FirstArgumentsSteady(begun, "fc_" + callId, st.next, initial);
    SteadyThen(st, begun, FirstArguments(begun, "fc_" + callId, st.next, initial).state);
    StaysOpen(begun, FirstArguments(begun, "fc_" + callId, st.next, initial).state, |st.items|, "fc_" + callId);
  }

  lemma StaysOpen(st: State, st1: State, p: nat, x: string)
    requires Steady(st, st1) && OpenCall(st, p, x) && x in st.tools.itemIds
    ensures OpenCall(st1, p, x) && x in st1.tools.itemIds
  {
    hide Apart, OpenCall;
  }

  lemma StepSteady(st: State, event: Upstream)
    requires Apart(st) && !st.Closed() && !EndsStream(event)
    ensures Steady(st, Step(st, event).state)
  {
    hide Apart, CallsStay, StartTool, StartCompaction, ArgumentsPiece, CompactionDelta, CloseCompaction;
    match event {
      case BlockStart(index, ToolUse(id, name, input)) => StartToolSteady(st, index, id, name, input);
      case BlockStart(index, CompactionBlock(content)) => StartCompactionSteady(st, index.GetOr(0), content);
      case BlockDelta(_, CompactionPiece(Some(text))) => CompactionDeltaSteady(st, text);
      case BlockDelta(index, InputJsonPiece(Some(partial))) => PieceSteady(st, index, partial);
      case BlockStop(index) =>
        SameStoreSteady(st, st.(cmp := st.cmp.(active := None)));
        CloseCompactionSteady(st.(cmp := st.cmp.(active := None)));
        SameStoreSteady(st, st);
        if st.cmp.active == Some(index.GetOr(USIZE_MAX)) {
          SteadyThen(st, st.(cmp := st.cmp.(active := None)), Step(st, event).state);
        }
      case _ => SameStoreSteady(st, Step(st, event).state);
    }
  }

  lemma SameStoreSteady(st: State, st1: State)
    requires Apart(st) && st1.items == st.items && st1.tools == st.tools && st1.cmp.itemId == st.cmp.itemId
    ensures Steady(st, st1)
  {}

  lemma {:induction false} RunSteady(st: State, c: Check, events: seq<Upstream>)
    requires Apart(st) && CheckLinked(st, c) && !st.Closed() && Ongoing(events)
    ensures var st1 := Run(st, events).state;
      Steady(st, st1) && !st1.Closed() && st1.id == st.id && CheckLinked(st1, ToolRouting.After(st.id, c, events))
    decreases |events|
  {
    hide Apart, CallsStay, Step, CheckLinked, Next;
    if events == [] {
      SameStoreSteady(st, st);
    } else {
      assert !EndsStream(events[0]);
      var first := Step(st, events[0]).state;
      StepSteady(st, events[0]);
      StepAll(st, c, events[0]);
      RunSteady(first, Next(st.id, c, events[0]), events[1..]);
      SteadyThen(st, first, Run(st, events).state);
    }
  }

  // ---------------------------------------------------------------- closing one index twice

  /** An index that is not open stays so while none is opened. */
  lemma {:induction false} NotOpenStays(b: Book, fs: seq<Frame>, k: nat)
    requires k !in b.open && NoAdded(fs)
    ensures k !in Observe(b, fs).open
    decreases |fs|
  {
    if fs != [] {
      NotOpenStays(if fs[0].Event? then See(b, fs[0].body) else b, fs[1..], k);
    }
  }

  predicate NoAdded(fs: seq<Frame>) {
    forall i :: 0 <= i < |fs| ==> !(fs[i].Event? && fs[i].body.ItemAdded?)
  }

  function ClosingIndex(st: State, x: string): nat {
    match FindId(st.tools.itemIds, x)
    case Some(ordinal) => ToolOutputIndex(st.tools, ordinal)
    case None => 0
  }

  /** Closing an open call: its index has to be open, and is not any more. */
  lemma ClosingCall(st: State, b: Book, item: Item, position: nat)
    requires item.FunctionCall? && !IsDone(item) && item.id in st.tools.itemIds
    requires st.cmp.itemId != Some(item.id)
    ensures var one := CloseItem(st, item, position); var k := ClosingIndex(st, item.id);
      && one.state == st.(sequence := one.state.sequence)
      && k !in Observe(b, one.out).open
      && (Observe(b, one.out).ok ==> k in b.open)
  {
    var k := ClosingIndex(st, item.id);
    ObserveTwo(b, st, ArgumentsDone(item.id, k, item.arguments), ItemDone(k, AsCompleted(item)));
  }

  lemma CloseItemAddsNothing(st: State, item: Item, position: nat)
    ensures NoAdded(CloseItem(st, item, position).out)
  {}

  lemma CloseItemSteady(st: State, item: Item, position: nat)
    requires Apart(st)
    ensures var st1 := CloseItem(st, item, position).state; Steady(st, st1) && st1.tools == st.tools
  {
    hide Apart, CallsStay, CloseCompaction;
    if !IsDone(item) && st.cmp.itemId == Some(item.id) {
      CloseCompactionSteady(st);
    } else {
      SameStoreSteady(st, CloseItem(st, item, position).state);
    }
  }

  /** With an open call still to close, its index has to be open. */
  lemma {:induction false} ClosingNeedsOpen(st: State, b: Book, items: seq<Item>, p: nat, n: nat)
    requires p <= n < |items| && items[n].FunctionCall? && !IsDone(items[n]) && items[n].id in st.tools.itemIds
    requires items[n].id != "" && items[n].id[0] == 'f' && Apart(st)
    requires ClosingIndex(st, items[n].id) !in b.open
    ensures !Observe(b, CloseItemsFrom(st, items, p).out).ok
    decreases |items| - p
  {
    hide Observe, CloseItem, Apart, CallsStay, NoAdded, ClosingIndex;
    var one := CloseItem(st, items[p], p);
    var rest := CloseItemsFrom(one.state, items, p + 1);
    ObserveThen(b, one.out, rest.out);
    if p == n {
      NotTheCompaction(st, items[n].id);
      ClosingCall(st, b, items[n], p);
      if Observe(b, one.out + rest.out).ok {
        OkBefore(Observe(b, one.out), rest.out);
      }
    } else {
      CloseItemAddsNothing(st, items[p], p);
      CloseItemSteady(st, items[p], p);
      NotOpenStays(b, one.out, ClosingIndex(st, items[n].id));
      SameClosingIndex(st, one.state, items[n].id);
      ClosingNeedsOpen(one.state, Observe(b, one.out), items, p + 1, n);
    }
  }

  lemma SameClosingIndex(st: State, st1: State, x: string)
    requires st1.tools == st.tools
    ensures ClosingIndex(st1, x) == ClosingIndex(st, x)
  {}

  lemma NotTheCompaction(st: State, x: string)
    requires Apart(st) && x != "" && x[0] == 'f'
    ensures st.cmp.itemId != Some(x)
  {}

  /** Of two open calls with one id the second finds its index closed. */
  lemma {:induction false} ClosingTwice(st: State, b: Book, items: seq<Item>, p: nat, m: nat, n: nat)
    requires p <= m < n < |items| && items[m].id == items[n].id && Apart(st)
    requires items[m].FunctionCall? && items[n].FunctionCall? && !IsDone(items[m]) && !IsDone(items[n])
    requires items[n].id in st.tools.itemIds && items[n].id != "" && items[n].id[0] == 'f'
    ensures !Observe(b, CloseItemsFrom(st, items, p).out).ok
    decreases |items| - p
  {
    hide Observe, CloseItem, Apart, CallsStay, ClosingIndex;
    var one := CloseItem(st, items[p], p);
    var rest := CloseItemsFrom(one.state, items, p + 1);
    ObserveThen(b, one.out, rest.out);
    CloseItemSteady(st, items[p], p);
    if p == m {
      NotTheCompaction(st, items[m].id);
      ClosingCall(st, b, items[m], p);
      SameClosingIndex(st, one.state, items[n].id);
      ClosingNeedsOpen(one.state, Observe(b, one.out), items, p + 1, n);
    } else {
      ClosingTwice(one.state, Observe(b, one.out), items, p + 1, m, n);
    }
  }

  ghost predicate Doubled(st: State, m: nat, n: nat, x: string) {
    m < n && OpenCall(st, m, x) && OpenCall(st, n, x) && x in st.tools.itemIds && Apart(st)
  }

  lemma CompleteRefused(st: State, b: Book, m: nat, n: nat, x: string)
    requires Doubled(st, m, n, x) && !st.Closed()
    ensures !Observe(b, Complete(st).out).ok
  {
    hide Observe, CloseItemsFrom, FinalOutput, Apart;
    var text := CloseText(st.(phase := st.phase.(finished := true)));
    var rest := CloseItemsFrom(text.state, text.state.items, 0);
    CallIsF(st, m, x);
    SameApart(st, text.state);
    ClosingTwice(text.state, Observe(b, text.out), text.state.items, 0, m, n);
    ObserveThen(b, text.out, rest.out);
    var last := Complete(st).out[|text.out + rest.out|..];
    assert Complete(st).out == (text.out + rest.out) + last;
    ObserveThen(b, text.out + rest.out, last);
    if Observe(b, Complete(st).out).ok {
      OkBefore(Observe(b, text.out + rest.out), last);
    }
  }

  lemma CallIsF(st: State, p: nat, x: string)
    requires Apart(st) && OpenCall(st, p, x)
    ensures x != "" && x[0] == 'f'
  {}

  lemma SameApart(st: State, st1: State)
    requires Apart(st) && st1.items == st.items && st1.cmp == st.cmp
    ensures Apart(st1)
  {}

  // ---------------------------------------------------------------- whole streams

  /** The call stands open behind its start. */
  lemma StartedIsOpen(id: string, model: string, events: seq<Upstream>, i: nat) returns (p: nat)
    requires i < |events| && Ongoing(events) && StartsTool(events[i])
    ensures var before, st := Run(Fresh(id, model), events[..i]).state, Run(Fresh(id, model), events[..i + 1]).state;
      && p == |before.items| && OpenCall(st, p, StartedId(id, events, i))
      && StartedId(id, events, i) in st.tools.itemIds && Steady(before, st)
  {
    hide Apart, CallsStay, OpenCall, Run, StartTool, CheckLinked;
    var st0 := Fresh(id, model);
    FreshLinked(id, model);
    FreshApart(id, model);
    RunSteady(st0, START, events[..i]);
    var before := Run(st0, events[..i]).state;
    assert events[..i + 1] == events[..i] + [events[i]];
    RunAppend(st0, events[..i], [events[i]]);
    RunOne(before, events[i]);
    var block := events[i].block;
    SameStartedId(before, After(id, START, events[..i]), block.id);
    StartToolSteady(before, events[i].index, block.id, block.name, block.input);
    p := |before.items|;
  }

  lemma FreshApart(id: string, model: string)
    ensures Apart(Fresh(id, model)) && !Fresh(id, model).Closed()
  {}

  lemma SameStartedId(st: State, c: Check, toolId: Option<string>)
    requires CheckLinked(st, c)
    ensures ToolId(st.id, toolId, c.tools) == "fc_" + CallId(st, toolId)
  {}

  /** From one moment of a stream to a later one. */
  lemma Between(id: string, model: string, events: seq<Upstream>, i: nat, j: nat)
    requires i <= j <= |events| && Ongoing(events)
    ensures var a, b := Run(Fresh(id, model), events[..i]).state, Run(Fresh(id, model), events[..j]).state;
      Steady(a, b) && !b.Closed()
  {
    hide Apart, CallsStay, Run, CheckLinked;
    var st0 := Fresh(id, model);
    FreshLinked(id, model);
    FreshApart(id, model);
    RunSteady(st0, START, events[..i]);
    assert events[..j] == events[..i] + events[i..j];
    RunAppend(st0, events[..i], events[i..j]);
    RunSteady(Run(st0, events[..i]).state, After(id, START, events[..i]), events[i..j]);
  }

  lemma Doubles(id: string, model: string, events: seq<Upstream>, i: nat, j: nat) returns (m: nat, n: nat)
    requires i < j < |events| && Ongoing(events) && StartsTool(events[i]) && StartsTool(events[j])
    requires StartedId(id, events, i) == StartedId(id, events, j)
    ensures var st := Run(Fresh(id, model), events).state;
      Doubled(st, m, n, StartedId(id, events, i)) && !st.Closed()
  {
    hide Apart, OpenCall, Run, StartedId;
    var x := StartedId(id, events, i);
    var st0 := Fresh(id, model);
    m := StartedIsOpen(id, model, events, i);
    n := StartedIsOpen(id, model, events, j);
    Between(id, model, events, i + 1, j);
    Between(id, model, events, j + 1, |events|);
    assert events[..|events|] == events;
    var a, b := Run(st0, events[..i + 1]).state, Run(st0, events[..j]).state;
    var c, d := Run(st0, events[..j + 1]).state, Run(st0, events).state;
    StaysOpen(a, b, m, x);
    InItems(b, m, x);
    StaysOpen(b, c, m, x);
    StaysOpen(c, d, m, x);
    StaysOpen(c, d, n, x);
  }

  lemma InItems(st: State, p: nat, x: string)
    requires OpenCall(st, p, x)
    ensures p < |st.items|
  {}

  /** A tool block whose item id an earlier one has: whatever else the stream holds, once it is completed the observer
      has refused it, whether it ends in message_stop or is cut off after it has started. */
  lemma RepeatedCallIsRefused(id: string, model: string, events: seq<Upstream>, i: nat, j: nat)
    requires i < j < |events| && Ongoing(events) && StartsTool(events[i]) && StartsTool(events[j])
    requires StartedId(id, events, i) == StartedId(id, events, j)
    ensures !Observe(BLANK_BOOK, Sent(id, model, events + [MessageStop])).ok
    ensures Run(Fresh(id, model), events).state.phase.started ==> !Observe(BLANK_BOOK, Sent(id, model, events)).ok
  {
    hide Run, Complete, Observe, StartedId, Apart;
    var m, n := Doubles(id, model, events, i, j);
    var r, b := Run(Fresh(id, model), events), BLANK_BOOK;
    CompleteRefused(r.state, Observe(b, r.out), m, n, StartedId(id, events, i));
    ObserveThen(b, r.out, Complete(r.state).out);
    RunAppend(Fresh(id, model), events, [MessageStop]);
    RunOne(r.state, MessageStop);
    CompleteCloses(r.state);
    InItems(r.state, m, StartedId(id, events, i));
    assert r.out + Complete(r.state).out + [] == r.out + Complete(r.state).out;
  }
}
