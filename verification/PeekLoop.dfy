/** The Responses endpoint holds its headers while it peeks at the upstream body for a 4xx. */
module PeekLoop {
  import opened Text
  import opened Protocol
  import opened TranslatorSpec
  import opened Chunking
  import opened Translator
  import Sse

  /** What the upstream body yields: data, or a transport error. The end of the list is the end of the body. */
  datatype BodyFrame = Data(bytes: string) | Broken

  /** The proxy's table from a first status and a message to the status it reports. */
  type Classifier = (nat, string) -> nat

  datatype Served =
    | JsonError(status: nat, message: string)
    | Stream(prelude: seq<Frame>, tail: seq<seq<Frame>>)

  function StatusOfKind(kind: string, message: string, classify: Classifier): nat {
    match kind
    case "rate_limit_error" => 429
    case "authentication_error" => 401
    case "permission_error" => 403
    case "invalid_request_error" => 400
    case "not_found_error" => 404
    case _ => classify(502, message)
  }

  /** The 4xx a failure before any model output deserves. */
  function HttpError(st: State, classify: Classifier): Option<nat> {
    if !st.phase.failed || st.HasDeliverable() then None
    else
      var message := st.phase.failedMessage.GetOr("");
      var status := classify(StatusOfKind(st.phase.failedKind.GetOr(""), message, classify), message);
      if 400 <= status < 500 then Some(status) else None
  }

  predicate StopPeeking(st: State, classify: Classifier) {
    st.HasDeliverable() || st.phase.sawKeepalive || (st.phase.failed && HttpError(st, classify).None?)
  }

  // ---------------------------------------------------------------- the body without any peeking

  function OneFrame(decode: Decoder, st: State, buffer: string, frame: BodyFrame): Fed {
    match frame
    case Data(bytes) => Feed(decode, st, buffer, bytes)
    case Broken => var r := Fail(st, "upstream stream failed"); Fed(r.state, buffer, r.out)
  }

  /** Translate frame by frame: the first transport error, or the end of the body, is the last word. */
  function Direct(decode: Decoder, st: State, buffer: string, body: seq<BodyFrame>): Reply
    decreases |body|
  {
    if body == [] then End(decode, Fed(st, buffer, []))
    else
      var one := OneFrame(decode, st, buffer, body[0]);
      if body[0].Broken? then Reply(one.state, one.out)
      else Then(Reply(one.state, one.out), Direct(decode, one.state, one.buffer, body[1..]))
  }

  /** The translator after `k` steps of reading the body; reading its end is a step too. */
  function Walk(decode: Decoder, st: State, buffer: string, body: seq<BodyFrame>, k: nat): Fed
    decreases |body|
  {
    if k == 0 then Fed(st, buffer, [])
    else if body == [] then var r := End(decode, Fed(st, buffer, [])); Fed(r.state, "", r.out)
    else
      var one := OneFrame(decode, st, buffer, body[0]);
      if body[0].Broken? then one
      else
        var rest := Walk(decode, one.state, one.buffer, body[1..], k - 1);
        Fed(rest.state, rest.buffer, one.out + rest.out)
  }

  predicate AllData(body: seq<BodyFrame>, k: nat)
    requires k <= |body|
  {
    forall i :: 0 <= i < k ==> body[i].Data?
  }

  predicate LastWord(body: seq<BodyFrame>) {
    body == [] || body[0].Broken?
  }

  /** One step, then the translation of the rest. */
  lemma StepSplits(decode: Decoder, st: State, buffer: string, body: seq<BodyFrame>)
    ensures var w := Walk(decode, st, buffer, body, 1);
      Direct(decode, st, buffer, body).out
        == w.out + if LastWord(body) then [] else Direct(decode, w.state, w.buffer, body[1..]).out
  {
    if !LastWord(body) {
      var one := OneFrame(decode, st, buffer, body[0]);
      assert one.out + [] == one.out;
    }
  }

  /** Walking over data loses nothing: what was sent, plus the translation of the rest, is the whole. */
  lemma {:induction false} WalkSplits(decode: Decoder, st: State, buffer: string, body: seq<BodyFrame>, k: nat)
    requires k <= |body| && AllData(body, k)
    ensures var w := Walk(decode, st, buffer, body, k);
      Direct(decode, st, buffer, body) == Then(Reply(w.state, w.out), Direct(decode, w.state, w.buffer, body[k..]))
    decreases |body|
  {
    if k == 0 {
      assert body[0..] == body;
    } else {
      var one := OneFrame(decode, st, buffer, body[0]);
      assert body[1..][k - 1..] == body[k..];
      WalkSplits(decode, one.state, one.buffer, body[1..], k - 1) by {
        assert forall i :: 0 <= i < k - 1 ==> body[1..][i] == body[i + 1];
      }
      var w := Walk(decode, one.state, one.buffer, body[1..], k - 1);
      var rest := Direct(decode, w.state, w.buffer, body[k..]);
      assert one.out + (w.out + rest.out) == (one.out + w.out) + rest.out;
    }
  }

  /** The step after a walk over data. */
  lemma {:induction false} WalkNext(decode: Decoder, st: State, buffer: string, body: seq<BodyFrame>, k: nat)
    requires k <= |body| && AllData(body, k)
    ensures var w := Walk(decode, st, buffer, body, k);
      var next := Walk(decode, w.state, w.buffer, body[k..], 1);
      Walk(decode, st, buffer, body, k + 1) == Fed(next.state, next.buffer, w.out + next.out)
    decreases |body|
  {
    if k == 0 {
      assert body[0..] == body;
      var next := Walk(decode, st, buffer, body, 1);
      assert [] + next.out == next.out;
    } else {
      var one := OneFrame(decode, st, buffer, body[0]);
      assert body[1..][k - 1..] == body[k..];
      WalkNext(decode, one.state, one.buffer, body[1..], k - 1) by {
        assert forall i :: 0 <= i < k - 1 ==> body[1..][i] == body[i + 1];
      }
      var w := Walk(decode, one.state, one.buffer, body[1..], k - 1);
      var next := Walk(decode, w.state, w.buffer, body[k..], 1);
      assert one.out + (w.out + next.out) == (one.out + w.out) + next.out;
    }
  }

  function DataFrames(chunks: seq<string>): seq<BodyFrame> {
    if chunks == [] then [] else [Data(chunks[0])] + DataFrames(chunks[1..])
  }

  lemma {:induction false} DirectFeeds(decode: Decoder, st: State, buffer: string, chunks: seq<string>)
    ensures Direct(decode, st, buffer, DataFrames(chunks)) == End(decode, FeedAll(decode, st, buffer, chunks))
    decreases |chunks|
  {
    if chunks != [] {
      var body := DataFrames(chunks);
      assert body[0] == Data(chunks[0]) && body[1..] == DataFrames(chunks[1..]);
      var one := Feed(decode, st, buffer, chunks[0]);
      DirectFeeds(decode, one.state, one.buffer, chunks[1..]);
      EndAfter(decode, one.out, FeedAll(decode, one.state, one.buffer, chunks[1..]));
    }
  }

  lemma EndAfter(decode: Decoder, sent: seq<Frame>, fed: Fed)
    ensures End(decode, Fed(fed.state, fed.buffer, sent + fed.out)) == Then(Reply(fed.state, sent), End(decode, fed))
  {
    hide Wrap, RenderAll, Sse.Parse;
    var rest := RenderAll(decode, fed.state, Sse.Parse(fed.buffer));
    var last := Wrap(rest.state);
    assert sent + ((fed.out + rest.out) + last.out) == ((sent + fed.out) + rest.out) + last.out;
  }

  /** A body that ends cleanly is translated as one text: its events rendered in order, then the wrap-up. */
  lemma CleanBodyIsWhole(decode: Decoder, st: State, chunks: seq<string>)
    ensures Direct(decode, st, "", DataFrames(chunks))
      == var r := RenderAll(decode, st, Sse.Parse(Concat(chunks))); Then(r, Wrap(r.state))
  {
    DirectFeeds(decode, st, "", chunks);
    ChunkingIndependence(decode, st, chunks);
  }

  function Flat(parts: seq<seq<Frame>>): seq<Frame> {
    if parts == [] then [] else parts[0] + Flat(parts[1..])
  }

  lemma {:induction false} FlatPush(parts: seq<seq<Frame>>, last: seq<Frame>)
    ensures Flat(parts + [last]) == Flat(parts) + last
  {
    if parts == [] {
      assert parts + [last] == [last];
      assert [last][1..] == [];
    } else {
      assert (parts + [last])[1..] == parts[1..] + [last];
      FlatPush(parts[1..], last);
    }
  }

  /** Translate one body frame, or the end of the body, and say whether that was the last word. */
  method Advance(translator: AnthropicToResponses, body: seq<BodyFrame>, position: nat)
      returns (out: seq<Frame>, done: bool)
    requires position <= |body|
    modifies translator
    ensures done == (position == |body| || body[position].Broken?)
    ensures Fed(translator.View(), translator.buffer, out)
      == Walk(translator.decode, old(translator.View()), old(translator.buffer), body[position..], 1)
  {
    ghost var st, held := translator.View(), translator.buffer;
    if position == |body| {
      out := translator.Finish();
      ghost var rest := RenderAll(translator.decode, st, Sse.Parse(held));
      assert [] + rest.out == rest.out;
      done := true;
    } else {
      ghost var rest := body[position..];
      assert rest[0] == body[position];
      match body[position] {
        case Data(bytes) =>
          out := translator.Push(bytes);
          ghost var one := OneFrame(translator.decode, st, held, rest[0]);
          assert one.out + [] == one.out;
          done := false;
        case Broken =>
          out := translator.Failure("upstream stream failed");
          done := true;
      }
    }
  }

  /** After `k` steps of peeking the loop is over: the status is known, output or a keepalive has been seen, the
      deadline has passed, or the last step was the last word of the body. */
  predicate Over(decode: Decoder, classify: Classifier, start: State, body: seq<BodyFrame>, patience: nat, k: nat)
    requires k <= |body| + 1
  {
    var st := Walk(decode, start, "", body, k).state;
    || HttpError(st, classify).Some? || StopPeeking(st, classify)
    || k == patience
    || (k > 0 && LastWord(body[k - 1..]))
  }

  /** The step that decides between a 4xx and the stream: the first one after which peeking is over. */
  predicate Decides(decode: Decoder, classify: Classifier, start: State, body: seq<BodyFrame>, patience: nat, k: nat) {
    && k <= |body| + 1
    && Over(decode, classify, start, body, patience, k)
    && forall j :: 0 <= j < k ==> !Over(decode, classify, start, body, patience, j)
  }

  /** What is answered in that state: the 4xx when there is one, else the stream of the whole body's translation,
      begun with what the peeking has gathered. */
  predicate AnswersAs(r: Served, gathered: Fed, classify: Classifier, whole: seq<Frame>) {
    match HttpError(gathered.state, classify)
    case Some(status) =>
      r == JsonError(status, gathered.state.phase.failedMessage.GetOr("upstream rate limited"))
    case None => r.Stream? && r.prelude == gathered.out && r.prelude + Flat(r.tail) == whole
  }

  /** The answer of the deciding step. */
  ghost predicate Answers(r: Served, decode: Decoder, classify: Classifier, start: State, body: seq<BodyFrame>,
                          patience: nat) {
    exists k :: Decides(decode, classify, start, body, patience, k)
      && AnswersAs(r, Walk(decode, start, "", body, k), classify, Direct(decode, start, "", body).out)
  }

  lemma OneDecision(decode: Decoder, classify: Classifier, start: State, body: seq<BodyFrame>, patience: nat,
                    j: nat, k: nat)
    requires Decides(decode, classify, start, body, patience, j) && Decides(decode, classify, start, body, patience, k)
    ensures j == k
  {
    hide Over;
  }

  /** Serve a streaming body. `patience` is how many waits the deadline leaves room for. */
  method Serve(decode: Decoder, classify: Classifier, id: string, model: string, body: seq<BodyFrame>, patience: nat)
      returns (r: Served)
    ensures Answers(r, decode, classify, Fresh(id, model), body, patience)
  {
    hide End, OneFrame, HttpError, StopPeeking, Walk, Direct;
    var translator := new AnthropicToResponses(decode, id, model);
    ghost var start := Fresh(id, model);
    var prelude: seq<Frame> := [];
    var position, bodyDone := 0, false;
    WalkNothing(decode, start, body);
    while true
      invariant fresh(translator) && translator.decode == decode
      invariant position <= |body| && position <= patience && !bodyDone
      invariant AllData(body, position)
      invariant Fed(translator.View(), translator.buffer, prelude) == Walk(decode, start, "", body, position)
      invariant forall j :: 0 <= j < position ==> !Over(decode, classify, start, body, patience, j)
      decreases patience - position
    {
      var status := HttpError(translator.View(), classify);
      if status.Some? {
        r := JsonError(status.value, translator.phase.failedMessage.GetOr("upstream rate limited"));
        assert Decides(decode, classify, start, body, patience, position);
        return;
      }
      if StopPeeking(translator.View(), classify) || position == patience {
        break;
      }
      WalkNext(decode, start, "", body, position);
      var out, done := Advance(translator, body, position);
      prelude := prelude + out;
      if done {
        bodyDone := true;
        break;
      }
      position := position + 1;
    }
    ghost var k := if bodyDone then position + 1 else position;
    assert Decides(decode, classify, start, body, patience, k);
    var status := HttpError(translator.View(), classify);
    if status.Some? {
      r := JsonError(status.value, translator.phase.failedMessage.GetOr("upstream rate limited"));
      return;
    }
    WalkSplits(decode, start, "", body, position);
    if bodyDone {
      LastStep(decode, start, "", body, position);
    }
    var tail := Drain(translator, body, position, bodyDone);
    r := Stream(prelude, tail);
  }

  lemma WalkNothing(decode: Decoder, st: State, body: seq<BodyFrame>)
    ensures Walk(decode, st, "", body, 0) == Fed(st, "", [])
  {}

  /** The step that reads a transport error or the end of the body completes the translation. */
  lemma LastStep(decode: Decoder, st: State, buffer: string, body: seq<BodyFrame>, k: nat)
    requires k <= |body| && AllData(body, k)
    requires k == |body| || body[k].Broken?
    ensures Walk(decode, st, buffer, body, k + 1).out == Direct(decode, st, buffer, body).out
  {
    WalkSplits(decode, st, buffer, body, k);
    WalkNext(decode, st, buffer, body, k);
    var w := Walk(decode, st, buffer, body, k);
    StepSplits(decode, w.state, w.buffer, body[k..]);
    if k < |body| {
      assert body[k..][0] == body[k];
    }
  }

  /** One step of the rest of the body, with what has been sent before it. */
  lemma DrainStep(decode: Decoder, st: State, buffer: string, body: seq<BodyFrame>, position: nat,
                  tail: seq<seq<Frame>>, out: seq<Frame>)
    requires position <= |body| && Walk(decode, st, buffer, body[position..], 1).out == out
    ensures var w := Walk(decode, st, buffer, body[position..], 1);
      Flat(tail) + Direct(decode, st, buffer, body[position..]).out
      == Flat(tail + [out])
         + if LastWord(body[position..]) then [] else Direct(decode, w.state, w.buffer, body[position + 1..]).out
  {
    hide Walk, Direct;
    StepSplits(decode, st, buffer, body[position..]);
    FlatPush(tail, out);
    if position < |body| {
      assert body[position..][1..] == body[position + 1..];
    }
  }

  /** The stream behind the headers: the rest of the body, unless its end has been seen already. */
  method Drain(translator: AnthropicToResponses, body: seq<BodyFrame>, from: nat, bodyDone: bool)
      returns (tail: seq<seq<Frame>>)
    requires from <= |body|
    modifies translator
    ensures Flat(tail) == if bodyDone then []
      else Direct(translator.decode, old(translator.View()), old(translator.buffer), body[from..]).out
  {
    hide OneFrame, Direct, Walk, End, Flat;
    tail := [];
    var position, done := from, bodyDone;
    ghost var whole := Direct(translator.decode, translator.View(), translator.buffer, body[from..]).out;
    FlatNothing();
    while !done
      invariant from <= position <= |body| + 1
      invariant !done ==> position <= |body|
      invariant bodyDone ==> done && tail == []
      invariant !bodyDone ==>
        whole == Flat(tail) + if done then [] else
                   Direct(translator.decode, translator.View(), translator.buffer, body[position..]).out
      decreases |body| + 1 - position
    {
      ghost var st, held := translator.View(), translator.buffer;
      var out, last := Advance(translator, body, position);
      DrainStep(translator.decode, st, held, body, position, tail, out);
      tail := tail + [out];
      done := last;
      position := position + 1;
    }
  }

  lemma FlatNothing()
    ensures Flat([]) == []
  {}
}
