/** What a stream comes to, read from the upstream events alone: usage, model, stop reason, text, and how it ends. */
module EventFacts {
  import opened Text
  import opened Protocol
  import opened TranslatorSpec
  import opened Chunking
  import opened Terminal
  import opened Announcement
  import opened Completion
  import opened TerminalOutput
  import opened ToolRouting

  // ---------------------------------------------------------------- said of the events alone

  function UsageIn(event: Upstream): Option<Usage> {
    match event
    case MessageStart(_, usage) => usage
    case MessageDelta(_, usage) => usage
    case _ => None
  }

  function InputTokens(u: Usage): Option<nat> {
    u.input
  }

  function OutputTokens(u: Usage): Option<nat> {
    u.output
  }

  function CacheReads(u: Usage): Option<nat> {
    u.cacheRead
  }

  function CacheCreations(u: Usage): Option<nat> {
    u.cacheCreation
  }

  /** The last value the events name for a counter, or what it was before them. */
  function LastNamed(events: seq<Upstream>, counter: Usage -> Option<nat>, before: nat): nat {
    if events == [] then before
    else
      var usage, earlier := UsageIn(events[|events| - 1]), events[..|events| - 1];
      if usage.Some? && counter(usage.value).Some? then counter(usage.value).value
      else LastNamed(earlier, counter, before)
  }

  function LastModel(events: seq<Upstream>, before: string): string {
    if events == [] then before
    else
      var last := events[|events| - 1];
      if last.MessageStart? && last.model.Some? then last.model.value else LastModel(events[..|events| - 1], before)
  }

  /** The last stop reason that is not empty. */
  function LastReason(events: seq<Upstream>, before: Option<string>): Option<string> {
    if events == [] then before
    else
      var last := events[|events| - 1];
      if last.MessageDelta? && last.stopReason.Some? && last.stopReason.value != "" then last.stopReason
      else LastReason(events[..|events| - 1], before)
  }

  function TextIn(event: Upstream): Option<string> {
    match event
    case BlockDelta(_, TextPiece(text)) => text
    case _ => None
  }

  function ThinkingIn(event: Upstream): Option<string> {
    match event
    case BlockDelta(_, ThinkingPiece(text)) => text
    case _ => None
  }

  /** All pieces of one kind, joined. */
  function JoinedIn(events: seq<Upstream>, piece: Upstream -> Option<string>): string {
    if events == [] then ""
    else JoinedIn(events[..|events| - 1], piece) + piece(events[|events| - 1]).GetOr("")
  }

  predicate Any(events: seq<Upstream>, holds: Upstream -> bool) {
    exists k :: 0 <= k < |events| && holds(events[k])
  }

  predicate HasText(event: Upstream) {
    TextIn(event).Some?
  }

  predicate IsPing(event: Upstream) {
    event.Ping?
  }

  /** The stream starts with `message_start` or a ping. */
  predicate Begins(event: Upstream) {
    event.MessageStart? || event.Ping?
  }

  /** Something worth delivering: a piece of text or thinking that is not empty, a tool or a compaction block. */
  predicate Delivers(event: Upstream) {
    || TextIn(event).GetOr("") != "" || ThinkingIn(event).GetOr("") != ""
    || (event.BlockStart? && !event.block.OtherBlock?)
  }

  // ---------------------------------------------------------------- what the state keeps of them

  /** Text and thinking are the pieces joined, and there is a message as soon as there is a piece. */
  ghost predicate SaysSo(st0: State, events: seq<Upstream>, st: State) {
    && st.msg.text == st0.msg.text + JoinedIn(events, TextIn)
    && st.thinking.text == st0.thinking.text + JoinedIn(events, ThinkingIn)
    && st.msg.itemId == (if st0.msg.itemId.None? && Any(events, HasText) then Some("msg_" + st0.id) else st0.msg.itemId)
  }

  ghost predicate Reflects(st0: State, events: seq<Upstream>, st: State) {
    && !st.Closed() && st.id == st0.id
    && st.model == LastModel(events, st0.model)
    && st.usage.input == LastNamed(events, InputTokens, st0.usage.input)
    && st.usage.output == LastNamed(events, OutputTokens, st0.usage.output)
    && st.usage.cached == LastNamed(events, CacheReads, st0.usage.cached)
    && st.usage.cacheCreation == LastNamed(events, CacheCreations, st0.usage.cacheCreation)
    && st.stopReason == LastReason(events, st0.stopReason)
    && SaysSo(st0, events, st)
    && (st.phase.started <==> st0.phase.started || Any(events, Begins))
    && (st.phase.sawKeepalive <==> st0.phase.sawKeepalive || Any(events, IsPing))
    && (st.HasDeliverable() <==> st0.HasDeliverable() || Any(events, Delivers))
  }

  lemma AnyMore(events: seq<Upstream>, event: Upstream, holds: Upstream -> bool)
    ensures Any(events + [event], holds) <==> Any(events, holds) || holds(event)
  {
    var all := events + [event];
    if Any(events, holds) {
      var k :| 0 <= k < |events| && holds(events[k]);
      assert holds(all[k]);
    }
    if holds(event) {
      assert holds(all[|events|]);
    }
  }

  /** One event, field by field. */
  lemma StepHead(st: State, event: Upstream)
    requires !st.Closed() && !EndsStream(event)
    ensures var st1, usage := Step(st, event).state, UsageIn(event);
      && !st1.Closed() && st1.id == st.id
      && st1.model == (if event.MessageStart? then event.model.GetOr(st.model) else st.model)
      && st1.usage == (if usage.None? then st.usage
                       else Counters(usage.value.input.GetOr(st.usage.input), usage.value.output.GetOr(st.usage.output),
                                     usage.value.cacheRead.GetOr(st.usage.cached),
                                     usage.value.cacheCreation.GetOr(st.usage.cacheCreation)))
      && st1.stopReason == (if event.MessageDelta? && event.stopReason.GetOr("") != "" then event.stopReason
                            else st.stopReason)
      && (st1.phase.started <==> st.phase.started || Begins(event))
      && (st1.phase.sawKeepalive <==> st.phase.sawKeepalive || IsPing(event))
  {
    hide Replace, FindItem, InitialArguments, CallId, CompactionId, ToolOrdinal, AddTool, IsDone, Frames;
    OnlySomeEnd(st, event);
  }

  lemma StepText(st: State, event: Upstream)
    requires !st.Closed() && !EndsStream(event)
    ensures var st1 := Step(st, event).state;
      && st1.msg.text == st.msg.text + TextIn(event).GetOr("")
      && st1.thinking.text == st.thinking.text + ThinkingIn(event).GetOr("")
      && st1.msg.itemId == (if st.msg.itemId.None? && HasText(event) then Some("msg_" + st.id) else st.msg.itemId)
      && (st1.items != [] <==> st.items != [] || (event.BlockStart? && !event.block.OtherBlock?))
  {
    hide FindItem, InitialArguments, CallId, CompactionId, ToolOrdinal, AddTool, IsDone, Frames;
    assert st.msg.text + "" == st.msg.text && st.thinking.text + "" == st.thinking.text;
  }

  lemma JoinedMore(events: seq<Upstream>, event: Upstream, piece: Upstream -> Option<string>, before: string)
    ensures before + JoinedIn(events + [event], piece) == (before + JoinedIn(events, piece)) + piece(event).GetOr("")
  {
    assert (events + [event])[..|events|] == events;
  }

  lemma LastMore(events: seq<Upstream>, event: Upstream, counter: Usage -> Option<nat>, before: nat)
    ensures LastNamed(events + [event], counter, before)
         == if UsageIn(event).Some? then counter(UsageIn(event).value).GetOr(LastNamed(events, counter, before))
            else LastNamed(events, counter, before)
  {
    assert (events + [event])[..|events|] == events;
  }

  lemma LastWordsMore(events: seq<Upstream>, event: Upstream, model: string, reason: Option<string>)
    ensures LastModel(events + [event], model)
         == if event.MessageStart? then event.model.GetOr(LastModel(events, model)) else LastModel(events, model)
    ensures LastReason(events + [event], reason)
         == if event.MessageDelta? && event.stopReason.GetOr("") != "" then event.stopReason
            else LastReason(events, reason)
  {
    assert (events + [event])[..|events|] == events;
  }

  lemma OneMoreReflected(st0: State, events: seq<Upstream>, st: State, event: Upstream)
    requires Reflects(st0, events, st) && !EndsStream(event)
    ensures Reflects(st0, events + [event], Step(st, event).state)
  {
    hide Step, JoinedIn, LastNamed, LastModel, LastReason, Any, UsageIn, TextIn, ThinkingIn;
    StepHead(st, event);
    StepText(st, event);
    JoinedMore(events, event, TextIn, st0.msg.text);
    JoinedMore(events, event, ThinkingIn, st0.thinking.text);
    LastMore(events, event, InputTokens, st0.usage.input);
    LastMore(events, event, OutputTokens, st0.usage.output);
    LastMore(events, event, CacheReads, st0.usage.cached);
    LastMore(events, event, CacheCreations, st0.usage.cacheCreation);
    LastWordsMore(events, event, st0.model, st0.stopReason);
    AnyMore(events, event, HasText);
    AnyMore(events, event, Begins);
    AnyMore(events, event, IsPing);
    AnyMore(events, event, Delivers);
  }

  /** Every run of an open stream: each counter is the last value a `message_start` or `message_delta` named for it,
      the model the last one named, the stop reason the last that is not empty; text and thinking are their pieces
      joined; and whether it has started, has been pinged, has anything to deliver is read from the events. */
  lemma {:induction false} RunReflects(st: State, events: seq<Upstream>)
    requires !st.Closed() && Ongoing(events)
    ensures Reflects(st, events, Run(st, events).state)
    decreases |events|
  {
    hide Step;
    if events == [] {
      assert st.msg.text + "" == st.msg.text && st.thinking.text + "" == st.thinking.text;
    } else {
      var n := |events| - 1;
      var before, last := events[..n], events[n];
      RunReflects(st, before);
      assert events == before + [last];
      RunAppend(st, before, [last]);
      RunOne(Run(st, before).state, last);
      OneMoreReflected(st, before, Run(st, before).state, last);
    }
  }

  // ---------------------------------------------------------------- the terminal response

  /** The stream closes with this event and the closing mark. */
  predicate ClosesWith(frames: seq<Frame>, body: Body) {
    && |frames| >= 2 && frames[|frames| - 1] == DoneMark
    && frames[|frames| - 2].Event? && frames[|frames| - 2].body == body
  }

  /** Input counts what was read from and written to the cache too. */
  function TotalsOf(events: seq<Upstream>): Totals {
    Totals(LastNamed(events, InputTokens, 0) + LastNamed(events, CacheReads, 0) + LastNamed(events, CacheCreations, 0),
           LastNamed(events, OutputTokens, 0), LastNamed(events, CacheReads, 0))
  }

  function FinalResponse(id: string, model: string, events: seq<Upstream>, status: ResponseStatus,
                         output: seq<Item>): Response {
    Response(id, LastModel(events, model), status, output, TotalsOf(events))
  }

  /** Completed, or incomplete when the last stop reason is that the tokens ran out. */
  function Success(id: string, model: string, events: seq<Upstream>, output: seq<Item>): Body {
    if LastReason(events, None) == Some("max_tokens")
    then IncompleteBody(FinalResponse(id, model, events, IncompleteResponse, output))
    else CompletedBody(FinalResponse(id, model, events, CompletedResponse, output))
  }

  function Failure(id: string, model: string, events: seq<Upstream>, kind: string, message: string,
                   output: seq<Item>): Body {
    FailedBody(FinalResponse(id, model, events, FailedResponse, output), Some(kind), message)
  }

  /** The output has the one message with all the text, if there was a piece of it, and the reasoning with all the
      thinking, if that is not empty; nothing else passes for them. */
  ghost predicate SaysAll(id: string, events: seq<Upstream>, output: seq<Item>) {
    && (Any(events, HasText) <==> Message("msg_" + id, Status.Completed, Some(JoinedIn(events, TextIn))) in output)
    && (forall item :: item in output && item.Message? && item.id == "msg_" + id ==>
          item == Message("msg_" + id, Status.Completed, Some(JoinedIn(events, TextIn))))
    && (JoinedIn(events, ThinkingIn) != "" <==> Reasoning("rs_" + id, JoinedIn(events, ThinkingIn)) in output)
    && (forall item :: item in output && item.Reasoning? ==>
          item == Reasoning("rs_" + id, JoinedIn(events, ThinkingIn)))
  }

  /** No stored item passes for the message or for reasoning. */
  ghost predicate StoredApart(st: State) {
    forall i :: 0 <= i < |st.items| ==>
      !st.items[i].Reasoning? && (st.items[i].Message? ==> |st.items[i].id| > 4 + |st.id|)
  }

  lemma ReplaceApart(st: State, id: string, change: Item -> Item, st1: State)
    requires StoredApart(st) && st1.id == st.id && st1.items == Replace(st.items, id, change)
    requires forall x :: change(x).id == x.id
    requires forall x :: (change(x).Message? <==> x.Message?) && (change(x).Reasoning? <==> x.Reasoning?)
    ensures StoredApart(st1)
  {}

  lemma CompactionApart(st: State, text: string)
    requires StoredApart(st)
    ensures StoredApart(CompactionDelta(st, text).state)
  {
    hide StoredApart, Replace;
    var st1, joined := CompactionDelta(st, text).state, st.cmp.text + text;
    if text != "" && st.cmp.itemId.Some? {
      ReplaceApart(st, st.cmp.itemId.value, item => WithText(item, joined), st1);
    } else {
      SameApart(st, st1);
    }
  }

  lemma StartApart(st: State, index: Option<nat>, block: Block)
    requires StoredApart(st)
    ensures StoredApart(Start(st, index, block).state)
  {
    hide FindItem, InitialArguments, CallId, AddTool, CompactionDelta, Frames;
    match block {
      case CompactionBlock(content) =>
        var begun := OpenCompaction(st, index.GetOr(0)).state;
        assert StoredApart(begun);
        if content.Some? {
          CompactionApart(begun, content.value);
        }
      case _ =>
    }
  }

  lemma StepApart(st: State, event: Upstream)
    requires StoredApart(st) && !st.Closed() && !EndsStream(event)
    ensures StoredApart(Step(st, event).state)
  {
    hide FindItem, ToolOrdinal, IsDone, Frames, Start, CompactionDelta;
    match event {
      case BlockStart(index, block) => StartApart(st, index, block);
      case BlockDelta(_, CompactionPiece(Some(text))) => CompactionApart(st, text);
      case _ =>
    }
  }

  lemma {:induction false} RunApart(st: State, events: seq<Upstream>)
    requires StoredApart(st) && !st.Closed() && Ongoing(events)
    ensures StoredApart(Run(st, events).state)
    decreases |events|
  {
    hide Step, StoredApart;
    if events != [] {
      assert !EndsStream(events[0]);
      OnlySomeEnd(st, events[0]);
      StepApart(st, events[0]);
      RunApart(Step(st, events[0]).state, events[1..]);
    }
  }

  lemma {:induction false} ClosingApart(st: State, items: seq<Item>, p: nat)
    requires p <= |items| && StoredApart(st)
    ensures var st1 := CloseItemsFrom(st, items, p).state;
      StoredApart(st1) && st1 == st.(items := st1.items, sequence := st1.sequence)
    decreases |items| - p
  {
    if p < |items| {
      var one := CloseItem(st, items[p], p).state;
      assert StoredApart(one) && one == st.(items := one.items, sequence := one.sequence);
      ClosingApart(one, items, p + 1);
    }
  }

  /** What the terminal output holds besides completed stored items. */
  lemma OutputHolds(st: State, item: Item)
    ensures item in FinalOutput(st) <==>
      || (st.thinking.text != "" && item == Reasoning("rs_" + st.id, st.thinking.text))
      || (st.msg.itemId.Some? && item == Message(st.msg.itemId.value, Status.Completed, Some(st.msg.text)))
      || exists i :: 0 <= i < |st.items| && item == AsCompleted(st.items[i])
  {
    hide Sorted, ItemsOf, ItemIndex, ItemEntries, AsCompleted;
    var reasoning := ReasoningEntries(st);
    var text := TextEntries(st, |reasoning|);
    var order := |reasoning| + |text|;
    ItemEntriesAt(st, 0, order);
    var es := Entries(st);
    SortedKeeps(es, item);
    if item in ItemsOf(es) {
      var j := InItemsOf(es, item);
      if j >= order {
        assert es[j] == ItemEntries(st, 0, order)[j - order];
        assert item == AsCompleted(st.items[j - order]);
      }
    }
    if st.thinking.text != "" {
      assert es[0] == reasoning[0];
      ItemsOfAt(es, 0);
    }
    if st.msg.itemId.Some? {
      assert es[|reasoning|] == text[0];
      ItemsOfAt(es, |reasoning|);
    }
    if i :| 0 <= i < |st.items| && item == AsCompleted(st.items[i]) {
      assert es[order + i] == ItemEntries(st, 0, order)[i];
      ItemsOfAt(es, order + i);
    }
  }

  lemma ApartIsNeither(st: State, i: nat)
    requires StoredApart(st) && i < |st.items|
    ensures !AsCompleted(st.items[i]).Reasoning?
    ensures AsCompleted(st.items[i]).Message? ==> AsCompleted(st.items[i]).id != "msg_" + st.id
  {}

  lemma OutputSaysAll(id: string, model: string, events: seq<Upstream>, st: State)
    requires SaysSo(Fresh(id, model), events, st) && StoredApart(st) && st.id == id
    ensures SaysAll(id, events, FinalOutput(st))
  {
    hide FinalOutput, AsCompleted, Any, JoinedIn, StoredApart;
    var text, thinking := JoinedIn(events, TextIn), JoinedIn(events, ThinkingIn);
    assert "" + text == text && "" + thinking == thinking;
    OutputHolds(st, Message("msg_" + id, Status.Completed, Some(text)));
    OutputHolds(st, Reasoning("rs_" + id, thinking));
    forall i | 0 <= i < |st.items| ensures !AsCompleted(st.items[i]).Reasoning?
      && (AsCompleted(st.items[i]).Message? ==> AsCompleted(st.items[i]).id != "msg_" + id) {
      ApartIsNeither(st, i);
    }
    forall item | item in FinalOutput(st) && (item.Reasoning? || (item.Message? && item.id == "msg_" + id))
      ensures item == if item.Reasoning? then Reasoning("rs_" + id, thinking)
                      else Message("msg_" + id, Status.Completed, Some(text))
    {
      OutputHolds(st, item);
    }
  }

  lemma FreshReflects(id: string, model: string, events: seq<Upstream>)
    requires Ongoing(events)
    ensures var st := Run(Fresh(id, model), events).state;
      Reflects(Fresh(id, model), events, st) && StoredApart(st)
  {
    RunReflects(Fresh(id, model), events);
    RunApart(Fresh(id, model), events);
  }

  lemma CompleteSays(id: string, model: string, events: seq<Upstream>, st: State) returns (output: seq<Item>)
    requires Reflects(Fresh(id, model), events, st) && StoredApart(st)
    ensures ClosesWith(Complete(st).out, Success(id, model, events, output)) && SaysAll(id, events, output)
  {
    hide FinalOutput, CloseItemsFrom, JoinedIn, LastNamed, LastModel, LastReason, Any, StoredApart, SaysAll;
    var text := CloseText(st.(phase := st.phase.(finished := true))).state;
    SameApart(st, text);
    ClosingApart(text, text.items, 0);
    var closed := CloseItemsFrom(text, text.items, 0).state;
    output := FinalOutput(closed);
    OutputSaysAll(id, model, events, closed);
  }

  lemma SameApart(st: State, st1: State)
    requires StoredApart(st) && st1.items == st.items && st1.id == st.id
    ensures StoredApart(st1)
  {}

  lemma FailSays(id: string, model: string, events: seq<Upstream>, st: State, kind: string, message: string)
    returns (output: seq<Item>)
    requires Reflects(Fresh(id, model), events, st) && StoredApart(st)
    ensures ClosesWith(FailWith(st, kind, message).out, Failure(id, model, events, kind, message, output))
    ensures SaysAll(id, events, output)
  {
    hide FinalOutput, JoinedIn, LastNamed, LastModel, LastReason, Any, StoredApart, SaysAll;
    var begun := Announce(st);
    var ended := begun.state.(phase := begun.state.phase.(finished := true, failed := true,
                                                           failedKind := Some(kind), failedMessage := Some(message)));
    SameApart(st, ended);
    output := FinalOutput(ended);
    OutputSaysAll(id, model, events, ended);
  }

  // ---------------------------------------------------------------- how a stream ends

  lemma ClosesBehind(sent: seq<Frame>, frames: seq<Frame>, body: Body)
    requires ClosesWith(frames, body)
    ensures ClosesWith(sent + frames, body)
  {}

  /** The event that ends the stream is the last that counts. */
  lemma EndedSent(id: string, model: string, before: seq<Upstream>, last: Upstream, after: seq<Upstream>)
    requires Ongoing(before) && EndsStream(last)
    ensures var st := Run(Fresh(id, model), before).state;
      && !st.Closed()
      && Sent(id, model, before + [last] + after) == Run(Fresh(id, model), before).out + Step(st, last).out
  {
    hide Step, Run, Wrap;
    var st0 := Fresh(id, model);
    RunReflects(st0, before);
    var r := Run(st0, before);
    StepShape(r.state, last);
    var ended := Step(r.state, last);
    RunAppend(st0, before, [last]);
    RunOne(r.state, last);
    RunAppend(st0, before + [last], after);
    ClosedStays(ended.state, after);
    WrapOfClosed(ended.state);
    assert Run(st0, before + [last]).out == r.out + ended.out;
    assert r.out + ended.out + [] + [] == r.out + ended.out;
  }

  lemma {:induction false} ClosedStays(st: State, events: seq<Upstream>)
    requires st.Closed()
    ensures Run(st, events) == Silent(st)
    decreases |events|
  {
    if events != [] {
      ClosedStays(st, events[1..]);
    }
  }

  lemma WrapOfClosed(st: State)
    requires st.Closed()
    ensures Wrap(st) == Silent(st)
  {}

  /** A stream stopped by `message_stop`, whatever follows: completed, or incomplete when the tokens ran out, with the
      model, the usage, the text and the thinking of the events before. */
  lemma StoppedStream(id: string, model: string, before: seq<Upstream>, after: seq<Upstream>)
    returns (output: seq<Item>)
    requires Ongoing(before)
    ensures ClosesWith(Sent(id, model, before + [MessageStop] + after), Success(id, model, before, output))
    ensures SaysAll(id, before, output)
  {
    hide Run, Complete, Sent, Reflects, StoredApart, SaysAll;
    FreshReflects(id, model, before);
    EndedSent(id, model, before, MessageStop, after);
    var st := Run(Fresh(id, model), before).state;
    output := CompleteSays(id, model, before, st);
    ClosesBehind(Run(Fresh(id, model), before).out, Complete(st).out, Success(id, model, before, output));
  }

  /** A stream ended by an error event: failed with its kind and message, or the usual ones. */
  lemma FailedStream(id: string, model: string, before: seq<Upstream>, kind: Option<string>, message: Option<string>,
                     after: seq<Upstream>)
    returns (output: seq<Item>)
    requires Ongoing(before)
    ensures ClosesWith(Sent(id, model, before + [ErrorEvent(kind, message)] + after),
                       Failure(id, model, before, kind.GetOr("api_error"), message.GetOr("upstream error"), output))
    ensures SaysAll(id, before, output)
  {
    hide Run, FailWith, Sent, Reflects, StoredApart, SaysAll;
    FreshReflects(id, model, before);
    EndedSent(id, model, before, ErrorEvent(kind, message), after);
    var r := Run(Fresh(id, model), before);
    var k, m := kind.GetOr("api_error"), message.GetOr("upstream error");
    output := FailSays(id, model, before, r.state, k, m);
    ClosesBehind(r.out, FailWith(r.state, k, m).out, Failure(id, model, before, k, m, output));
  }

  /** A stream cut off: nothing is made up before it has started; once it has, it completes if there was anything to
      deliver, text or thinking alone included, and fails otherwise. */
  lemma CutOffStream(id: string, model: string, events: seq<Upstream>) returns (output: seq<Item>)
    requires Ongoing(events)
    ensures !Any(events, Begins) ==> forall j: nat :: !EndsAt(Sent(id, model, events), j)
    ensures Any(events, Begins) ==>
      ClosesWith(Sent(id, model, events),
                 if Any(events, Delivers) then Success(id, model, events, output)
                 else Failure(id, model, events, "api_error", "upstream stream ended without completion", output))
    ensures Any(events, Begins) ==> SaysAll(id, events, output)
  {
    hide Run, Complete, FailWith, StoredApart, SaysAll, Any, JoinedIn, LastNamed, LastModel, LastReason;
    FreshReflects(id, model, events);
    var r := Run(Fresh(id, model), events);
    output := [];
    if !Any(events, Begins) {
      OngoingIsPlain(Fresh(id, model), events);
      assert r.out + [] == r.out;
    } else if Any(events, Delivers) {
      output := CompleteSays(id, model, events, r.state);
      ClosesBehind(r.out, Complete(r.state).out, Success(id, model, events, output));
    } else {
      var message := "upstream stream ended without completion";
      output := FailSays(id, model, events, r.state, "api_error", message);
      ClosesBehind(r.out, FailWith(r.state, "api_error", message).out,
                   Failure(id, model, events, "api_error", message, output));
    }
  }

  lemma {:induction false} OngoingIsPlain(st: State, events: seq<Upstream>)
    requires !st.Closed() && Ongoing(events)
    ensures Goes(st, Run(st, events))
    ensures forall j: nat :: !EndsAt(Run(st, events).out, j)
    decreases |events|
  {
    hide Step;
    if events != [] {
      assert !EndsStream(events[0]);
      StepShape(st, events[0]);
      var first := Step(st, events[0]);
      OngoingIsPlain(first.state, events[1..]);
      GoesThen(st, first, Run(first.state, events[1..]));
    }
    var out := Run(st, events).out;
    forall j: nat | j < |out| ensures !EndsAt(out, j) {
      assert Plain(out[j], st.sequence + j);
    }
  }
}
