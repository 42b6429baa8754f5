/** One terminal event at most, `[DONE]` right behind it, and gapless numbering, over every sequence of calls. */
module Terminal {
  import opened Text
  import opened Protocol
  import opened TranslatorSpec
  import opened Chunking
  import Sse

  /** A frame in the middle of a stream: a numbered event that ends nothing. */
  predicate Plain(f: Frame, sequence: nat) {
    f.Event? && f.sequence == sequence && !f.body.Terminal()
  }

  predicate PlainRun(fs: seq<Frame>, first: nat) {
    forall i :: 0 <= i < |fs| ==> Plain(fs[i], first + i)
  }

  predicate Last(f: Frame, sequence: nat) {
    f.Event? && f.sequence == sequence && f.body.Terminal()
  }

  /** A terminal event stands there. */
  predicate EndsAt(frames: seq<Frame>, j: nat) {
    j < |frames| && frames[j].Event? && frames[j].body.Terminal()
  }

  /** Numbered from `first`, and either still open or closed by one terminal event and `[DONE]`. */
  predicate Trace(fs: seq<Frame>, first: nat, closed: bool) {
    if closed then
      && |fs| >= 2
      && PlainRun(fs[..|fs| - 2], first)
      && Last(fs[|fs| - 2], first + |fs| - 2)
      && fs[|fs| - 1] == DoneMark
    else PlainRun(fs, first)
  }

  /** What one call keeps while it does not end the stream. */
  predicate Goes(st: State, r: Reply) {
    && r.state.phase.finished == st.phase.finished && r.state.phase.failed == st.phase.failed
    && (st.phase.started ==> r.state.phase.started)
    && r.state.sequence == st.sequence + |r.out|
    && PlainRun(r.out, st.sequence)
  }

  predicate Ends(st: State, r: Reply) {
    && r.state.Closed()
    && (st.phase.started ==> r.state.phase.started)
    && Trace(r.out, st.sequence, true)
  }

  lemma GoesThen(st: State, a: Reply, b: Reply)
    requires Goes(st, a) && Goes(a.state, b)
    ensures Goes(st, Then(a, b))
  {
    forall i | 0 <= i < |a.out + b.out| ensures Plain((a.out + b.out)[i], st.sequence + i) {
      if i >= |a.out| {
        assert Plain(b.out[i - |a.out|], a.state.sequence + (i - |a.out|));
      }
    }
  }

  lemma GoesThenEnds(st: State, a: Reply, b: Reply)
    requires Goes(st, a) && Ends(a.state, b)
    ensures Ends(st, Then(a, b))
  {
    var out := a.out + b.out;
    var n := |b.out| - 2;
    assert out[..|out| - 2] == a.out + b.out[..n];
    forall i | 0 <= i < |a.out + b.out[..n]| ensures Plain((a.out + b.out[..n])[i], st.sequence + i) {
      if i >= |a.out| {
        assert Plain(b.out[..n][i - |a.out|], a.state.sequence + (i - |a.out|));
      }
    }
  }

  lemma {:induction false} CloseFromGoes(st: State, items: seq<Item>, position: nat)
    requires position <= |items|
    ensures Goes(st, CloseItemsFrom(st, items, position))
    ensures CloseItemsFrom(st, items, position).state.phase == st.phase
    decreases |items| - position
  {
    if position < |items| {
      var one := CloseItem(st, items[position], position);
      CloseFromGoes(one.state, items, position + 1);
      GoesThen(st, one, CloseItemsFrom(one.state, items, position + 1));
    }
  }

  lemma CloseGoes(st: State)
    ensures Goes(st, CloseOpenItems(st))
    ensures CloseOpenItems(st).state.phase == st.phase
  {
    var text := CloseText(st);
    CloseFromGoes(text.state, text.state.items, 0);
    GoesThen(st, text, CloseItemsFrom(text.state, text.state.items, 0));
  }

  lemma FinallyEnds(st: State, body: Body)
    requires body.Terminal() && st.Closed()
    ensures Ends(st, Finally(st, body))
  {
    var r := Finally(st, body);
    assert r.out[..|r.out| - 2] == [];
  }

  lemma CompleteEnds(st: State)
    requires !st.Closed()
    ensures Ends(st, Complete(st))
  {
    var marked := st.(phase := st.phase.(finished := true));
    var closed := CloseOpenItems(marked);
    CloseGoes(marked);
    var output := FinalOutput(closed.state);
    var body := if st.stopReason == Some("max_tokens")
                then IncompleteBody(closed.state.Base(IncompleteResponse, output))
                else CompletedBody(closed.state.Base(CompletedResponse, output));
    FinallyEnds(closed.state, body);
    GoesThenEnds(marked, closed, Finally(closed.state, body));
    assert Complete(st) == Then(closed, Finally(closed.state, body));
  }

  lemma FailEnds(st: State, kind: string, message: string)
    requires !st.Closed()
    ensures Ends(st, FailWith(st, kind, message))
  {
    var begun := Announce(st);
    var ended := begun.state.(phase := begun.state.phase.(finished := true, failed := true,
                                                           failedKind := Some(kind), failedMessage := Some(message)));
    var body := FailedBody(ended.Base(FailedResponse, FinalOutput(ended)), Some(kind), message);
    FinallyEnds(ended, body);
    var last := Finally(ended, body);
    assert Ends(begun.state, last);
    GoesThenEnds(st, begun, last);
    assert FailWith(st, kind, message) == Then(begun, last);
  }

  lemma StartToolGoes(st: State, index: Option<nat>, id: Option<string>, name: string, input: Option<string>)
    ensures Goes(st, StartTool(st, index, id, name, input))
  {
    var callId := CallId(st, id);
    var begun := OpenTool(st, index, callId, name);
    FirstArgumentsGoes(begun.state, "fc_" + callId, st.next, InitialArguments(input));
    GoesThen(st, begun, FirstArguments(begun.state, "fc_" + callId, st.next, InitialArguments(input)));
  }

  lemma FirstArgumentsGoes(st: State, itemId: string, output: nat, initial: string)
    ensures Goes(st, FirstArguments(st, itemId, output, initial))
  {}

  lemma PieceGoes(st: State, index: Option<nat>, delta: Delta)
    ensures Goes(st, Piece(st, index, delta))
  {}

  lemma PingGoes(st: State)
    ensures Goes(st, OnPing(st))
  {
    var begun := Announce(st.(phase := st.phase.(sawKeepalive := true)));
    var beat := Send(begun.state, [InProgressBody(begun.state.Base(RunningResponse, begun.state.items))]);
    GoesThen(st, begun, beat);
    assert OnPing(st) == Then(begun, beat);
  }

  lemma StopGoes(st: State, index: Option<nat>)
    ensures Goes(st, OnStop(st, index))
  {}

  lemma StartCompactionGoes(st: State, index: nat, content: Option<string>)
    ensures Goes(st, StartCompaction(st, index, content))
  {
    var begun := OpenCompaction(st, index);
    if content.Some? {
      GoesThen(st, begun, CompactionDelta(begun.state, content.value));
    }
  }

  predicate EndsStream(event: Upstream) {
    event.MessageStop? || event.ErrorEvent?
  }

  /** Every event either goes on or ends the stream, and which one is decided by its kind. */
  lemma StepShape(st: State, event: Upstream)
    requires !st.Closed()
    ensures !EndsStream(event) ==> Goes(st, Step(st, event))
    ensures EndsStream(event) ==> Ends(st, Step(st, event))
  {
    match event {
      case BlockStart(index, ToolUse(id, name, input)) => StartToolGoes(st, index, id, name, input);
      case BlockStart(index, CompactionBlock(content)) => StartCompactionGoes(st, index.GetOr(0), content);
      case MessageStop => CompleteEnds(st);
      case ErrorEvent(kind, message) => FailEnds(st, kind.GetOr("api_error"), message.GetOr("upstream error"));
      case Ping => PingGoes(st);
      case BlockDelta(index, delta) => PieceGoes(st, index, delta);
      case BlockStop(index) => StopGoes(st, index);
      case _ =>
    }
  }

  /** A call on an open stream leaves a trace; on a closed one it leaves nothing. */
  predicate Behaves(st: State, r: Reply) {
    if st.Closed() then r == Silent(st) else (Goes(st, r) || Ends(st, r))
  }

  lemma BehavesThen(st: State, a: Reply, b: Reply)
    requires Behaves(st, a) && Behaves(a.state, b)
    ensures Behaves(st, Then(a, b))
  {
    if !st.Closed() {
      if Ends(st, a) {
        assert a.out + b.out == a.out;
      } else if Goes(a.state, b) {
        GoesThen(st, a, b);
      } else {
        GoesThenEnds(st, a, b);
      }
    }
  }

  lemma {:induction false} RenderBehaves(decode: Decoder, st: State, events: seq<Sse.SseEvent>)
    ensures Behaves(st, RenderAll(decode, st, events))
    decreases |events|
  {
    if events != [] {
      var first := RenderEvent(decode, st, events[0]);
      if !st.Closed() && decode(events[0].data).Some? {
        StepShape(st, decode(events[0].data).value);
      }
      RenderBehaves(decode, first.state, events[1..]);
      BehavesThen(st, first, RenderAll(decode, first.state, events[1..]));
    }
  }

  // ---------------------------------------------------------------- any calls, in any order

  datatype Call = Push(chunk: string) | Finish | Failure(message: string)

  function Answer(decode: Decoder, st: State, buffer: string, call: Call): Fed {
    match call
    case Push(chunk) => Feed(decode, st, buffer, chunk)
    case Finish => var r := End(decode, Fed(st, buffer, [])); Fed(r.state, "", r.out)
    case Failure(message) => var r := Fail(st, message); Fed(r.state, buffer, r.out)
  }

  function Session(decode: Decoder, st: State, buffer: string, calls: seq<Call>): Fed
    decreases |calls|
  {
    if calls == [] then Fed(st, buffer, [])
    else
      var one := Answer(decode, st, buffer, calls[0]);
      var rest := Session(decode, one.state, one.buffer, calls[1..]);
      Fed(rest.state, rest.buffer, one.out + rest.out)
  }

  lemma FinishBehaves(decode: Decoder, st: State, buffer: string)
    ensures var r := End(decode, Fed(st, buffer, []));
      Behaves(st, r) && (r.state.phase.started ==> r.state.Closed())
  {
    var rest := RenderAll(decode, st, Sse.Parse(buffer));
    RenderBehaves(decode, st, Sse.Parse(buffer));
    var last := Wrap(rest.state);
    if rest.state.phase.started && !rest.state.Closed() {
      if rest.state.HasDeliverable() {
        CompleteEnds(rest.state);
      } else {
        FailEnds(rest.state, "api_error", "upstream stream ended without completion");
      }
    }
    BehavesThen(st, rest, last);
    assert [] + rest.out == rest.out;
  }

  lemma AnswerBehaves(decode: Decoder, st: State, buffer: string, call: Call)
    ensures var r := Answer(decode, st, buffer, call);
      Behaves(st, Reply(r.state, r.out)) && (call.Finish? && r.state.phase.started ==> r.state.Closed())
  {
    match call {
      case Push(chunk) =>
        var whole := buffer + chunk;
        RenderBehaves(decode, st, Sse.Parse(whole[..Cut(whole)]));
      case Finish => FinishBehaves(decode, st, buffer);
      case Failure(message) =>
        if !st.Closed() {
          FailEnds(st, "api_error", message);
        }
    }
  }

  lemma {:induction false} SessionBehaves(decode: Decoder, st: State, buffer: string, calls: seq<Call>)
    ensures var r := Session(decode, st, buffer, calls);
      && Behaves(st, Reply(r.state, r.out))
      && (calls != [] && calls[|calls| - 1].Finish? && r.state.phase.started ==> r.state.Closed())
    decreases |calls|
  {
    if calls != [] {
      var one := Answer(decode, st, buffer, calls[0]);
      AnswerBehaves(decode, st, buffer, calls[0]);
      SessionBehaves(decode, one.state, one.buffer, calls[1..]);
      var rest := Session(decode, one.state, one.buffer, calls[1..]);
      BehavesThen(st, Reply(one.state, one.out), Reply(rest.state, rest.out));
      if |calls| > 1 {
        assert calls[1..][|calls| - 2] == calls[|calls| - 1];
      }
    }
  }

  /** Every session of a new translator: numbers 0, 1, 2, ... with at most one terminal event, closed by
      `[DONE]` with nothing behind it; and a stream that ever started is closed once a finish has returned. */
  lemma SingleTerminal(decode: Decoder, id: string, model: string, calls: seq<Call>)
    ensures var r := Session(decode, Fresh(id, model), "", calls);
      && Trace(r.out, 0, r.state.Closed())
      && (calls != [] && calls[|calls| - 1].Finish? && r.state.phase.started ==> r.state.Closed())
  {
    SessionBehaves(decode, Fresh(id, model), "", calls);
  }
}
