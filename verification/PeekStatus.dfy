/** Which answer a body gets, read from its events: a 4xx for a failure that comes first, else the stream. */
module PeekStatus {
  import opened Text
  import opened Protocol
  import opened TranslatorSpec
  import opened Chunking
  import opened Terminal
  import opened Announcement
  import opened ToolRouting
  import opened EventFacts
  import opened PeekLoop
  import Sse

  // ---------------------------------------------------------------- the events of a body

  /** The events that have come in after `k` steps; the text left at the end of the body is read in its last step. */
  function Arrived(decode: Decoder, buffer: string, body: seq<BodyFrame>, k: nat): seq<Upstream>
    decreases |body|
  {
    if k == 0 then []
    else if body == [] then Decoded(decode, Sse.Parse(buffer))
    else match body[0]
      case Broken => []
      case Data(bytes) =>
        var whole := buffer + bytes;
        Decoded(decode, Sse.Parse(whole[..Cut(whole)])) + Arrived(decode, whole[Cut(whole)..], body[1..], k - 1)
  }

  /** Nothing to deliver, and no end of the stream. */
  predicate Bare(events: seq<Upstream>) {
    forall i :: 0 <= i < |events| ==> !Delivers(events[i]) && !EndsStream(events[i])
  }

  /** Nor a keepalive. */
  predicate Quiet(events: seq<Upstream>) {
    Bare(events) && forall i :: 0 <= i < |events| ==> !IsPing(events[i])
  }

  /** The state a walk over data leaves is that of a run of the events that came in. */
  lemma {:induction false} WalkIsRun(decode: Decoder, st: State, buffer: string, body: seq<BodyFrame>, k: nat)
    requires k <= |body| && AllData(body, k)
    ensures Walk(decode, st, buffer, body, k).state == Run(st, Arrived(decode, buffer, body, k)).state
    decreases |body|
  {
    hide Run, RenderAll, Sse.Parse, Decoded;
    if k == 0 {
      RunNothing(st);
    } else {
      assert body[0].Data?;
      var whole := buffer + body[0].bytes;
      var ready, rest := whole[..Cut(whole)], whole[Cut(whole)..];
      RenderIsRun(decode, st, Sse.Parse(ready));
      var st1 := RenderAll(decode, st, Sse.Parse(ready)).state;
      assert forall i :: 0 <= i < k - 1 ==> body[1..][i] == body[i + 1];
      WalkIsRun(decode, st1, rest, body[1..], k - 1);
      RunAppend(st, Decoded(decode, Sse.Parse(ready)), Arrived(decode, rest, body[1..], k - 1));
    }
  }

  lemma RunNothing(st: State)
    ensures Run(st, []) == Silent(st)
  {}

  /** At the end of the body the rest is read, and the stream wrapped up. */
  lemma {:induction false} LastWalkIsRun(decode: Decoder, st: State, buffer: string, body: seq<BodyFrame>)
    requires AllData(body, |body|)
    ensures Walk(decode, st, buffer, body, |body| + 1).state
         == Wrap(Run(st, Arrived(decode, buffer, body, |body| + 1)).state).state
    decreases |body|
  {
    hide Run, RenderAll, Sse.Parse, Decoded, Wrap;
    if body == [] {
      RenderIsRun(decode, st, Sse.Parse(buffer));
    } else {
      assert body[0].Data?;
      var whole := buffer + body[0].bytes;
      var ready, rest := whole[..Cut(whole)], whole[Cut(whole)..];
      RenderIsRun(decode, st, Sse.Parse(ready));
      var st1 := RenderAll(decode, st, Sse.Parse(ready)).state;
      assert forall i :: 0 <= i < |body| - 1 ==> body[1..][i] == body[i + 1];
      LastWalkIsRun(decode, st1, rest, body[1..]);
      RunAppend(st, Decoded(decode, Sse.Parse(ready)), Arrived(decode, rest, body[1..], |body|));
    }
  }

  /** A transport error fails the stream. */
  lemma {:induction false} BrokenWalkIsRun(decode: Decoder, st: State, buffer: string, body: seq<BodyFrame>, k: nat)
    requires k < |body| && AllData(body, k) && body[k].Broken?
    ensures Walk(decode, st, buffer, body, k + 1).state
         == Fail(Run(st, Arrived(decode, buffer, body, k)).state, "upstream stream failed").state
    decreases |body|
  {
    hide Fail, Run, Arrived;
    WalkNext(decode, st, buffer, body, k);
    WalkIsRun(decode, st, buffer, body, k);
    assert body[k..][0] == body[k];
  }

  /** Events that came in stay. */
  lemma {:induction false} ArrivedGrows(decode: Decoder, buffer: string, body: seq<BodyFrame>, j: nat, k: nat)
    requires j <= k
    ensures Arrived(decode, buffer, body, j) <= Arrived(decode, buffer, body, k)
    decreases |body|
  {
    hide Sse.Parse, Decoded;
    if j > 0 && body != [] && body[0].Data? {
      var whole := buffer + body[0].bytes;
      ArrivedGrows(decode, whole[Cut(whole)..], body[1..], j - 1, k - 1);
    }
  }

  // ---------------------------------------------------------------- peeking goes on while nothing happens

  lemma QuietState(id: string, model: string, events: seq<Upstream>)
    requires Quiet(events)
    ensures var st := Run(Fresh(id, model), events).state;
      !st.Closed() && !st.HasDeliverable() && !st.phase.sawKeepalive
      && (st.phase.started <==> Any(events, Begins))
  {
    hide LastNamed, LastModel, LastReason, JoinedIn, Run, Delivers;
    RunReflects(Fresh(id, model), events);
    assert !Any(events, Delivers) && !Any(events, IsPing);
  }

  lemma BareState(id: string, model: string, events: seq<Upstream>)
    requires Bare(events)
    ensures !Run(Fresh(id, model), events).state.Closed() && !Run(Fresh(id, model), events).state.HasDeliverable()
  {
    hide LastNamed, LastModel, LastReason, JoinedIn, Run, Delivers;
    RunReflects(Fresh(id, model), events);
    assert !Any(events, Delivers);
  }

  lemma QuietGoesOn(decode: Decoder, classify: Classifier, id: string, model: string, body: seq<BodyFrame>,
                    patience: nat, j: nat)
    requires j <= |body| && AllData(body, j) && j != patience && Quiet(Arrived(decode, "", body, j))
    ensures !Over(decode, classify, Fresh(id, model), body, patience, j)
  {
    hide Walk, Run, Arrived, Quiet;
    WalkIsRun(decode, Fresh(id, model), "", body, j);
    QuietState(id, model, Arrived(decode, "", body, j));
    if j > 0 {
      assert body[j - 1..][0] == body[j - 1];
    }
  }

  lemma QuietBefore(decode: Decoder, classify: Classifier, id: string, model: string, body: seq<BodyFrame>,
                    patience: nat, k: nat)
    requires k <= |body| && k < patience && AllData(body, k) && Quiet(Arrived(decode, "", body, k))
    ensures forall j :: 0 <= j <= k ==> !Over(decode, classify, Fresh(id, model), body, patience, j)
  {
    hide Arrived, Over;
    forall j | 0 <= j <= k ensures !Over(decode, classify, Fresh(id, model), body, patience, j) {
      ArrivedGrows(decode, "", body, j, k);
      var few, more := Arrived(decode, "", body, j), Arrived(decode, "", body, k);
      assert forall i :: 0 <= i < |few| ==> few[i] == more[i];
      QuietGoesOn(decode, classify, id, model, body, patience, j);
    }
  }

  /** The step at which peeking is over, when it was not before, is the one that is answered. */
  lemma Decided(r: Served, decode: Decoder, classify: Classifier, start: State, body: seq<BodyFrame>, patience: nat,
                k: nat)
    requires Answers(r, decode, classify, start, body, patience)
    requires k <= |body| + 1 && Over(decode, classify, start, body, patience, k)
    requires forall j :: 0 <= j < k ==> !Over(decode, classify, start, body, patience, j)
    ensures AnswersAs(r, Walk(decode, start, "", body, k), classify, Direct(decode, start, "", body).out)
  {
    hide Over, Walk, Direct, AnswersAs;
    var n :| Decides(decode, classify, start, body, patience, n)
      && AnswersAs(r, Walk(decode, start, "", body, n), classify, Direct(decode, start, "", body).out);
    OneDecision(decode, classify, start, body, patience, n, k);
  }

  // ---------------------------------------------------------------- a failure comes first

  const NAMED_KINDS: set<string> :=
    {"rate_limit_error", "authentication_error", "permission_error", "invalid_request_error", "not_found_error"}

  /** The status an error of this kind starts from. */
  predicate StartsFrom(kind: string, message: string, classify: Classifier, s: nat) {
    && (kind == "rate_limit_error" ==> s == 429)
    && (kind == "authentication_error" ==> s == 401)
    && (kind == "permission_error" ==> s == 403)
    && (kind == "invalid_request_error" ==> s == 400)
    && (kind == "not_found_error" ==> s == 404)
    && (kind !in NAMED_KINDS ==> s == classify(502, message))
  }

  /** The answer to a failure before any output: its classified status if that is a 4xx, else the stream. */
  ghost predicate Refused(r: Served, kind: string, message: string, classify: Classifier) {
    exists s :: StartsFrom(kind, message, classify, s)
      && if 400 <= classify(s, message) < 500 then r == JsonError(classify(s, message), message) else r.Stream?
  }

  lemma FailureIsAnswered(r: Served, gathered: Fed, classify: Classifier, whole: seq<Frame>, kind: string,
                          message: string)
    requires AnswersAs(r, gathered, classify, whole)
    requires gathered.state.phase.failed && !gathered.state.HasDeliverable()
    requires gathered.state.phase.failedKind == Some(kind) && gathered.state.phase.failedMessage == Some(message)
    ensures Refused(r, kind, message, classify)
  {
    var s := StatusOfKind(kind, message, classify);
    assert StartsFrom(kind, message, classify, s);
  }

  lemma FailedIsOver(decode: Decoder, classify: Classifier, start: State, body: seq<BodyFrame>, patience: nat, k: nat)
    requires k <= |body| + 1 && Walk(decode, start, "", body, k).state.phase.failed
    ensures Over(decode, classify, start, body, patience, k)
  {
    hide Walk;
  }

  lemma FailLeaves(st: State, kind: string, message: string)
    requires !st.Closed()
    ensures var st1 := FailWith(st, kind, message).state;
      && st1.phase.failed && st1.phase.failedKind == Some(kind) && st1.phase.failedMessage == Some(message)
      && (st1.HasDeliverable() <==> st.HasDeliverable())
  {
    hide FinalOutput;
  }

  lemma {:induction false} FailedStays(st: State, events: seq<Upstream>)
    requires st.Closed()
    ensures Run(st, events).state == st && Wrap(st).state == st
    decreases |events|
  {
    if events != [] {
      FailedStays(st, events[1..]);
    }
  }

  lemma RunToError(id: string, model: string, before: seq<Upstream>, kind: Option<string>, message: Option<string>,
                   after: seq<Upstream>)
    requires Bare(before)
    ensures var st := Run(Fresh(id, model), before + [ErrorEvent(kind, message)] + after).state;
      && st.phase.failed && !st.HasDeliverable() && Wrap(st).state == st
      && st.phase.failedKind == Some(kind.GetOr("api_error"))
      && st.phase.failedMessage == Some(message.GetOr("upstream error"))
  {
    hide Run, FailWith, Bare;
    var st0, error := Fresh(id, model), ErrorEvent(kind, message);
    BareState(id, model, before);
    var st := Run(st0, before).state;
    FailLeaves(st, kind.GetOr("api_error"), message.GetOr("upstream error"));
    RunAppend(st0, before, [error]);
    RunOne(st, error);
    RunAppend(st0, before + [error], after);
    FailedStays(Step(st, error).state, after);
  }

  /** A body whose first ending event is an error, with nothing deliverable before it and no ping in an earlier step,
      inside the deadline: the 4xx of its kind and message if there is one, with its message; else the stream. */
  lemma ErrorIsAnswered(r: Served, decode: Decoder, classify: Classifier, id: string, model: string,
                        body: seq<BodyFrame>, patience: nat, k: nat, before: seq<Upstream>, kind: Option<string>,
                        message: Option<string>, after: seq<Upstream>)
    requires Answers(r, decode, classify, Fresh(id, model), body, patience)
    requires k <= |body| && k < patience && AllData(body, if k < |body| then k + 1 else k)
    requires Quiet(Arrived(decode, "", body, k)) && Bare(before)
    requires Arrived(decode, "", body, k + 1) == before + [ErrorEvent(kind, message)] + after
    ensures Refused(r, kind.GetOr("api_error"), message.GetOr("upstream error"), classify)
  {
    hide Walk, Arrived, Run, Direct, Quiet, Bare, Over, AnswersAs, Refused, Wrap;
    var start := Fresh(id, model);
    QuietBefore(decode, classify, id, model, body, patience, k);
    RunToError(id, model, before, kind, message, after);
    if k < |body| {
      WalkIsRun(decode, start, "", body, k + 1);
    } else {
      LastWalkIsRun(decode, start, "", body);
    }
    FailedIsOver(decode, classify, start, body, patience, k + 1);
    Decided(r, decode, classify, start, body, patience, k + 1);
    FailureIsAnswered(r, Walk(decode, start, "", body, k + 1), classify, Direct(decode, start, "", body).out,
                      kind.GetOr("api_error"), message.GetOr("upstream error"));
  }

  /** A body that breaks off before anything has happened. */
  lemma BrokenIsAnswered(r: Served, decode: Decoder, classify: Classifier, id: string, model: string,
                         body: seq<BodyFrame>, patience: nat, k: nat)
    requires Answers(r, decode, classify, Fresh(id, model), body, patience)
    requires k < |body| && k < patience && AllData(body, k) && body[k].Broken?
    requires Quiet(Arrived(decode, "", body, k))
    ensures Refused(r, "api_error", "upstream stream failed", classify)
  {
    hide Walk, Arrived, Run, Direct, Quiet, Over, AnswersAs, Refused, FailWith;
    var start := Fresh(id, model);
    QuietBefore(decode, classify, id, model, body, patience, k);
    QuietState(id, model, Arrived(decode, "", body, k));
    BrokenWalkIsRun(decode, start, "", body, k);
    FailLeaves(Run(start, Arrived(decode, "", body, k)).state, "api_error", "upstream stream failed");
    FailedIsOver(decode, classify, start, body, patience, k + 1);
    Decided(r, decode, classify, start, body, patience, k + 1);
    FailureIsAnswered(r, Walk(decode, start, "", body, k + 1), classify, Direct(decode, start, "", body).out,
                      "api_error", "upstream stream failed");
  }

  /** A body that ends with nothing to deliver: once the stream has started that is a failure; before, it is not. */
  lemma EmptyIsAnswered(r: Served, decode: Decoder, classify: Classifier, id: string, model: string,
                        body: seq<BodyFrame>, patience: nat)
    requires Answers(r, decode, classify, Fresh(id, model), body, patience)
    requires |body| < patience && AllData(body, |body|)
    requires Quiet(Arrived(decode, "", body, |body| + 1))
    ensures if Any(Arrived(decode, "", body, |body| + 1), Begins)
            then Refused(r, "api_error", "upstream stream ended without completion", classify)
            else r.Stream?
  {
    hide Walk, Arrived, Run, Direct, Quiet, Over, Refused, FailWith, Any;
    var start, all := Fresh(id, model), Arrived(decode, "", body, |body| + 1);
    QuietState(id, model, all);
    QuietPart(decode, body, |body|, |body| + 1);
    QuietBefore(decode, classify, id, model, body, patience, |body|);
    LastWalkIsRun(decode, start, "", body);
    EndIsOver(decode, classify, start, body, patience);
    Decided(r, decode, classify, start, body, patience, |body| + 1);
    if Any(all, Begins) {
      FailLeaves(Run(start, all).state, "api_error", "upstream stream ended without completion");
      FailureIsAnswered(r, Walk(decode, start, "", body, |body| + 1), classify, Direct(decode, start, "", body).out,
                        "api_error", "upstream stream ended without completion");
    }
  }

  lemma QuietPart(decode: Decoder, body: seq<BodyFrame>, j: nat, k: nat)
    requires j <= k && Quiet(Arrived(decode, "", body, k))
    ensures Quiet(Arrived(decode, "", body, j))
  {
    hide Arrived;
    ArrivedGrows(decode, "", body, j, k);
    var few, more := Arrived(decode, "", body, j), Arrived(decode, "", body, k);
    assert forall i :: 0 <= i < |few| ==> few[i] == more[i];
  }

  lemma EndIsOver(decode: Decoder, classify: Classifier, start: State, body: seq<BodyFrame>, patience: nat)
    ensures Over(decode, classify, start, body, patience, |body| + 1)
  {
    hide Walk;
    assert body[|body|..] == [];
  }

  // ---------------------------------------------------------------- something else comes first

  /** A ping or output comes in a step that brings no end of the stream, or the deadline passes in silence: the
      answer is the stream, whatever fails later. */
  lemma AliveIsStreamed(r: Served, decode: Decoder, classify: Classifier, id: string, model: string,
                        body: seq<BodyFrame>, patience: nat, k: nat)
    requires Answers(r, decode, classify, Fresh(id, model), body, patience)
    requires k <= |body| && k <= patience && AllData(body, k)
    requires k > 0 ==> Quiet(Arrived(decode, "", body, k - 1))
    requires var events := Arrived(decode, "", body, k);
      Ongoing(events) && (k == patience || Any(events, IsPing) || Any(events, Delivers))
    ensures r.Stream?
    ensures r.Stream? ==> r.prelude + Flat(r.tail) == Direct(decode, Fresh(id, model), "", body).out
  {
    hide Walk, Arrived, Run, Direct, Quiet, Over, Any, LastNamed, LastModel, LastReason, JoinedIn, Ongoing;
    var start, events := Fresh(id, model), Arrived(decode, "", body, k);
    RunReflects(start, events);
    WalkIsRun(decode, start, "", body, k);
    if k > 0 {
      QuietBefore(decode, classify, id, model, body, patience, k - 1);
    }
    StoppedIsOver(decode, classify, start, body, patience, k);
    Decided(r, decode, classify, start, body, patience, k);
  }

  lemma StoppedIsOver(decode: Decoder, classify: Classifier, start: State, body: seq<BodyFrame>, patience: nat, k: nat)
    requires k <= |body| + 1
    requires var st := Walk(decode, start, "", body, k).state;
      k == patience || st.HasDeliverable() || st.phase.sawKeepalive
    ensures Over(decode, classify, start, body, patience, k)
  {
    hide Walk;
  }
}
