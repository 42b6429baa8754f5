/** On every well-formed stream, whether it completes, fails or just stops, the observer accepts what is sent. */
module Completion {
  import opened Text
  import opened Protocol
  import opened TranslatorSpec
  import opened Chunking
  import opened Ledger
  import opened Lifecycle
  import opened Terminal
  import opened Closing
  import opened TerminalOutput

  lemma LastStep(st: State, b: Book, body: Body)
    requires AllClosed(st, b)
    requires (body.CompletedBody? || body.IncompleteBody?) && body.response.output == FinalOutput(st)
    ensures Observe(b, Finally(st, body).out).ok
  {
    NothingOpen(st, b);
    FinalOutputIsWhole(st, b);
    ObserveFinally(b, st, body);
  }

  lemma CompleteStep(st: State, b: Book)
    requires !st.Closed() && Linked(st, b)
    ensures Observe(b, Complete(st).out).ok
  {
    var marked := st.(phase := st.phase.(finished := true));
    LinkedIgnoresPhase(st, marked, b);
    CloseAllStep(marked, b);
    var closed := CloseOpenItems(marked);
    var output := FinalOutput(closed.state);
    var body := if st.stopReason == Some("max_tokens")
                then IncompleteBody(closed.state.Base(IncompleteResponse, output))
                else CompletedBody(closed.state.Base(CompletedResponse, output));
    LastStep(closed.state, Observe(b, closed.out), body);
    ObserveThen(b, closed.out, Finally(closed.state, body).out);
  }

  /** The link reads nothing of the phase, the counters or the model name. */
  lemma LinkedIgnoresPhase(st: State, st1: State, b: Book)
    requires Linked(st, b)
    requires st1 == st.(phase := st1.phase, usage := st1.usage, model := st1.model,
                        stopReason := st1.stopReason, sequence := st1.sequence)
    ensures Linked(st1, b)
  {
    forall i | 0 <= i < |st.items| ensures ItemLinked(st1, b, i) {
      assert ItemLinked(st, b, i);
    }
    forall i, j | 0 <= i < j < |st1.items|
      ensures st1.items[i].id != st1.items[j].id && IndexOf(st1, i) != IndexOf(st1, j)
    {
      assert IndexOf(st, i) != IndexOf(st, j);
    }
    CoveredKept(st, b, st1, b);
  }

  lemma FailStep(st: State, b: Book, kind: string, message: string)
    requires b.ok
    ensures Observe(b, FailWith(st, kind, message).out).ok
  {
    hide Observe, FinalOutput;
    ObserveNothing(b);
    if !st.Closed() {
      var begun := Announce(st);
      var ended := begun.state.(phase := begun.state.phase.(finished := true, failed := true,
                                                             failedKind := Some(kind), failedMessage := Some(message)));
      var body := FailedBody(ended.Base(FailedResponse, FinalOutput(ended)), Some(kind), message);
      if !st.phase.started {
        ObserveOne(b, st, CreatedBody(st.Base(RunningResponse, [])));
      }
      ObserveFinally(b, ended, body);
      ObserveThen(b, begun.out, Finally(ended, body).out);
    }
  }

  lemma AnnounceStep(st: State, b: Book)
    requires Linked(st, b)
    ensures Observe(b, Announce(st).out) == b && Linked(Announce(st).state, b)
  {
    if !st.phase.started {
      ObserveOne(b, st, CreatedBody(st.Base(RunningResponse, [])));
    }
    LinkedIgnoresPhase(st, Announce(st).state, b);
  }

  lemma PingStep(st: State, b: Book)
    requires Linked(st, b)
    ensures Linked(OnPing(st).state, Observe(b, OnPing(st).out))
  {
    var noted := st.(phase := st.phase.(sawKeepalive := true));
    LinkedIgnoresPhase(st, noted, b);
    AnnounceStep(noted, b);
    var begun := Announce(noted);
    var beat := InProgressBody(begun.state.Base(RunningResponse, begun.state.items));
    ObserveOne(b, begun.state, beat);
    ObserveThen(b, begun.out, Send(begun.state, [beat]).out);
    LinkedIgnoresPhase(st, OnPing(st).state, b);
  }

  lemma QuietStep(st: State, b: Book, event: Upstream)
    requires Linked(st, b) && !st.Closed()
    requires event.MessageStart? || event.MessageDelta? || event.Ping? || event.OtherEvent?
    ensures var r := Step(st, event); Linked(r.state, Observe(b, r.out))
  {
    match event {
      case MessageStart(model, usage) =>
        var r := OnStart(st, model, usage);
        ObserveOne(b, r.state.(sequence := st.sequence), r.out[0].body);
        LinkedIgnoresPhase(st, r.state, b);
      case MessageDelta(stopReason, usage) =>
        LinkedIgnoresPhase(st, OnMessageDelta(st, stopReason, usage), b);
      case Ping => PingStep(st, b);
      case _ =>
    }
  }

  /** Every admitted event that does not end the stream keeps state and book linked. */
  lemma StepLinked(st: State, b: Book, c: Check, event: Upstream)
    requires Linked(st, b) && CheckLinked(st, c) && !st.Closed()
    requires Admits(st.id, c, event) && !EndsStream(event)
    ensures var r := Step(st, event); Linked(r.state, Observe(b, r.out))
  {
    hide ArgumentsPiece, OnPing, ThinkingDelta, ToolsLinked, CompactionDelta, TextDelta, See, FailWith;
    hide Complete, Linked;
    match event {
      case BlockDelta(_, ThinkingPiece(Some(text))) => ThinkingStep(st, b, text);
      case BlockDelta(_, CompactionPiece(Some(text))) => CompactionStep(st, b, text);
      case BlockDelta(_, TextPiece(Some(text))) => TextStep(st, b, text);
      case BlockDelta(index, InputJsonPiece(Some(partial))) => ArgumentsStep(st, b, index, partial);
      case BlockDelta(_, _) =>
      case BlockStart(index, CompactionBlock(content)) =>
        assert CompactionItemId(st.id, index.GetOr(0)) == CompactionId(st, index.GetOr(0));
        StartCompactionStep(st, b, index.GetOr(0), content);
      case BlockStart(index, ToolUse(id, name, input)) =>
        assert ToolId(st.id, id, c.tools) == "fc_" + CallId(st, id);
        StartToolStep(st, b, index, id, name, input);
      case BlockStart(_, OtherBlock) =>
      case BlockStop(index) =>
        if st.cmp.active == Some(index.GetOr(USIZE_MAX)) {
          CloseCompactionStep(st, b, st.(cmp := st.cmp.(active := None)));
        }
      case _ => QuietStep(st, b, event);
    }
  }

  /** The stored ids, the compaction and the tool count are all a check looks at. */
  lemma CheckKept(st: State, st1: State, c: Check)
    requires CheckLinked(st, c)
    requires |st1.items| == |st.items| && forall i :: 0 <= i < |st.items| ==> st1.items[i].id == st.items[i].id
    requires st1.tools == st.tools
    requires st1.cmp.itemId == st.cmp.itemId && st1.cmp.active == st.cmp.active
    ensures CheckLinked(st1, c)
  {}

  lemma OpenToolChecked(st: State, c: Check, index: Option<nat>, id: Option<string>, name: string,
                        input: Option<string>)
    requires CheckLinked(st, c)
    ensures CheckLinked(OpenTool(st, index, CallId(st, id), name).state,
                        Next(st.id, c, BlockStart(index, ToolUse(id, name, input))))
  {
    hide Trim;
    assert ToolId(st.id, id, c.tools) == "fc_" + CallId(st, id);
  }

  lemma OpenCompactionChecked(st: State, c: Check, index: Option<nat>, content: Option<string>)
    requires CheckLinked(st, c)
    ensures CheckLinked(OpenCompaction(st, index.GetOr(0)).state,
                        Next(st.id, c, BlockStart(index, CompactionBlock(content))))
  {
    assert CompactionItemId(st.id, index.GetOr(0)) == CompactionId(st, index.GetOr(0));
  }

  lemma StartCompactionChecked(st: State, c: Check, index: Option<nat>, content: Option<string>)
    requires CheckLinked(st, c)
    ensures CheckLinked(StartCompaction(st, index.GetOr(0), content).state,
                        Next(st.id, c, BlockStart(index, CompactionBlock(content))))
  {
    var c1 := Next(st.id, c, BlockStart(index, CompactionBlock(content)));
    var begun := OpenCompaction(st, index.GetOr(0)).state;
    OpenCompactionChecked(st, c, index, content);
    if content.Some? {
      CheckKept(begun, CompactionDelta(begun, content.value).state, c1);
    }
  }

  lemma FirstArgumentsChecked(st: State, c: Check, itemId: string, output: nat, initial: string)
    requires CheckLinked(st, c)
    ensures CheckLinked(FirstArguments(st, itemId, output, initial).state, c)
  {
    CheckKept(st, FirstArguments(st, itemId, output, initial).state, c);
  }

  lemma StartChecked(st: State, c: Check, index: Option<nat>, block: Block)
    requires CheckLinked(st, c)
    ensures CheckLinked(Start(st, index, block).state, Next(st.id, c, BlockStart(index, block)))
  {
    match block {
      case CompactionBlock(content) => StartCompactionChecked(st, c, index, content);
      case ToolUse(id, name, input) =>
        var callId := CallId(st, id);
        OpenToolChecked(st, c, index, id, name, input);
        FirstArgumentsChecked(OpenTool(st, index, callId, name).state, Next(st.id, c, BlockStart(index, block)),
                              "fc_" + callId, st.next, InitialArguments(input));
      case OtherBlock =>
    }
  }

  lemma StopChecked(st: State, c: Check, index: Option<nat>)
    requires CheckLinked(st, c)
    ensures CheckLinked(OnStop(st, index).state, Next(st.id, c, BlockStop(index)))
  {
    if st.cmp.active == Some(index.GetOr(USIZE_MAX)) {
      var st1 := st.(cmp := st.cmp.(active := None));
      CheckKept(st1, CloseCompaction(st1).state, Next(st.id, c, BlockStop(index)));
    }
  }

  /** The caller's own bookkeeping follows the translator's. */
  lemma StepChecked(st: State, c: Check, event: Upstream)
    requires CheckLinked(st, c) && !st.Closed() && !EndsStream(event)
    ensures CheckLinked(Step(st, event).state, Next(st.id, c, event))
  {
    hide Start, OnStop, CheckLinked, Complete, FailWith, Trim, Digits, FindItem;
    match event {
      case BlockStart(index, block) => StartChecked(st, c, index, block);
      case BlockStop(index) => StopChecked(st, c, index);
      case _ => CheckKept(st, Step(st, event).state, c);
    }
  }

  lemma StepKeepsId(st: State, event: Upstream)
    requires !EndsStream(event)
    ensures Step(st, event).state.id == st.id
  {}

  lemma EndStep(st: State, b: Book, event: Upstream)
    requires Linked(st, b) && !st.Closed() && EndsStream(event)
    ensures Observe(b, Step(st, event).out).ok
  {
    hide Linked, Observe, Complete, FailWith;
    match event {
      case MessageStop => CompleteStep(st, b);
      case ErrorEvent(kind, message) =>
        LinkedIsOk(st, b);
        FailStep(st, b, kind.GetOr("api_error"), message.GetOr("upstream error"));
    }
  }

  lemma ObserveNothing(b: Book)
    ensures Observe(b, []) == b
  {}

  lemma LinkedIsOk(st: State, b: Book)
    requires Linked(st, b)
    ensures b.ok
  {}

  lemma ClosedStep(st: State, b: Book, event: Upstream)
    requires st.Closed()
    ensures Step(st, event) == Silent(st) && Observe(b, Step(st, event).out) == b
  {}

  lemma {:induction false} RunAccepted(st: State, b: Book, c: Check, events: seq<Upstream>)
    requires st.Closed() ==> b.ok
    requires !st.Closed() ==> Linked(st, b) && CheckLinked(st, c) && WellFormed(st.id, c, events)
    ensures var r := Run(st, events);
      && Observe(b, r.out).ok
      && (!r.state.Closed() ==> Linked(r.state, Observe(b, r.out)))
    decreases |events|
  {
    hide Step, Linked, CheckLinked, Observe, Admits, Next;
    if events == [] {
      ObserveNothing(b);
      if !st.Closed() {
        LinkedIsOk(st, b);
      }
    } else {
      var first := Step(st, events[0]);
      var b1 := Observe(b, first.out);
      if !st.Closed() {
        StepShape(st, events[0]);
        if EndsStream(events[0]) {
          EndStep(st, b, events[0]);
        } else {
          StepLinked(st, b, c, events[0]);
          StepChecked(st, c, events[0]);
          StepKeepsId(st, events[0]);
        }
      } else {
        ClosedStep(st, b, events[0]);
      }
      RunAccepted(first.state, b1, Next(st.id, c, events[0]), events[1..]);
      ObserveThen(b, first.out, Run(first.state, events[1..]).out);
    }
  }

  lemma WrapAccepted(st: State, b: Book)
    requires b.ok && (!st.Closed() ==> Linked(st, b))
    ensures Observe(b, Wrap(st).out).ok
  {
    if st.phase.started && !st.Closed() {
      if st.HasDeliverable() {
        CompleteStep(st, b);
      } else {
        FailStep(st, b, "api_error", "upstream stream ended without completion");
      }
    }
  }

  /** The item life cycle, over every well-formed stream, whether it ends in message_stop or just stops: the observer
      accepts everything that is sent. */
  lemma LifecycleAccepted(id: string, model: string, events: seq<Upstream>)
    requires WellFormed(id, START, events)
    ensures var r := Run(Fresh(id, model), events);
      Observe(BLANK_BOOK, Then(r, Wrap(r.state)).out).ok
  {
    var st := Fresh(id, model);
    assert Linked(st, BLANK_BOOK);
    RunAccepted(st, BLANK_BOOK, START, events);
    var r := Run(st, events);
    WrapAccepted(r.state, Observe(BLANK_BOOK, r.out));
    ObserveThen(BLANK_BOOK, r.out, Wrap(r.state).out);
  }

  /** All frames of a run and its wrap-up. */
  function Sent(id: string, model: string, events: seq<Upstream>): seq<Frame> {
    var r := Run(Fresh(id, model), events);
    r.out + Wrap(r.state).out
  }

  /** The same in positions: when a well-formed stream completes, every `output_item.added` has exactly one
      `output_item.done` for the same index and item, after it and before the completion. */
  lemma EveryAddedIsDone(id: string, model: string, events: seq<Upstream>, i: nat) returns (j: nat)
    requires WellFormed(id, START, events) && RanToCompletion(Sent(id, model, events))
    requires i < |Sent(id, model, events)|
    requires Sent(id, model, events)[i].Event? && Sent(id, model, events)[i].body.ItemAdded?
    ensures var trace := Sent(id, model, events);
      && i < j < |trace| - 2
      && DoneAt(trace, j, trace[i].body.index) && trace[j].body.item.id == trace[i].body.item.id
      && (forall m: nat :: DoneAt(trace, m, trace[i].body.index) ==> m == j)
  {
    LifecycleAccepted(id, model, events);
    j := CompletedHasOneDone(Sent(id, model, events), i);
  }
}
