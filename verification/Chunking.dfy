/** How the upstream bytes are cut into chunks makes no difference to what is rendered. */
module Chunking {
  import opened Text
  import opened Protocol
  import opened TranslatorSpec
  import Sse

  function Then(a: Reply, b: Reply): Reply {
    Reply(b.state, a.out + b.out)
  }

  function Concat(chunks: seq<string>): string {
    if chunks == [] then "" else chunks[0] + Concat(chunks[1..])
  }

  /** The translator between two calls: its state, the text it still holds, and what it has sent. */
  datatype Fed = Fed(state: State, buffer: string, out: seq<Frame>)

  function Feed(decode: Decoder, st: State, buffer: string, chunk: string): Fed {
    var whole := buffer + chunk;
    var r := RenderAll(decode, st, Sse.Parse(whole[..Cut(whole)]));
    Fed(r.state, whole[Cut(whole)..], r.out)
  }

  function FeedAll(decode: Decoder, st: State, buffer: string, chunks: seq<string>): Fed
    decreases |chunks|
  {
    if chunks == [] then Fed(st, buffer, [])
    else
      var one := Feed(decode, st, buffer, chunks[0]);
      var rest := FeedAll(decode, one.state, one.buffer, chunks[1..]);
      Fed(rest.state, rest.buffer, one.out + rest.out)
  }

  /** What `finish` does to a fed translator. */
  function End(decode: Decoder, fed: Fed): Reply {
    var rest := RenderAll(decode, fed.state, Sse.Parse(fed.buffer));
    Then(Reply(rest.state, fed.out + rest.out), Wrap(rest.state))
  }

  lemma {:induction false} RenderAllAppend(decode: Decoder, st: State, a: seq<Sse.SseEvent>, b: seq<Sse.SseEvent>)
    ensures RenderAll(decode, st, a + b)
         == Then(RenderAll(decode, st, a), RenderAll(decode, RenderAll(decode, st, a).state, b))
    decreases |a|
  {
    hide RenderEvent;
    if a == [] {
      assert a + b == b;
    } else {
      assert (a + b)[0] == a[0] && (a + b)[1..] == a[1..] + b;
      var first := RenderEvent(decode, st, a[0]);
      RenderAllAppend(decode, first.state, a[1..], b);
      var mid := RenderAll(decode, first.state, a[1..]);
      var last := RenderAll(decode, mid.state, b);
      assert first.out + (mid.out + last.out) == (first.out + mid.out) + last.out;
    }
  }

  lemma ParseEmpty()
    ensures Sse.Parse("") == []
  {
    Sse.RoundTripSafe([]);
  }

  /** The part rendered now and the part kept for later parse as the whole would. */
  lemma ParseAtCut(whole: string, later: string)
    ensures Sse.Parse(whole + later) == Sse.Parse(whole[..Cut(whole)]) + Sse.Parse(whole[Cut(whole)..] + later)
  {
    var ready, rest := whole[..Cut(whole)], whole[Cut(whole)..];
    assert whole + later == ready + (rest + later);
    if ready == "" {
      ParseEmpty();
      assert whole + later == rest + later;
    } else {
      assert BlankAt(whole, |ready| - 2);
      assert ready[|ready| - 2..] == Sse.BLANK;
      Sse.ParseAppend(ready, rest + later);
    }
  }

  /** From any state with any text held back: feeding chunks, then parsing what is left, renders the whole. */
  lemma {:induction false} FeedRendersWhole(decode: Decoder, st: State, buffer: string, chunks: seq<string>)
    ensures var fed := FeedAll(decode, st, buffer, chunks);
      var rest := RenderAll(decode, fed.state, Sse.Parse(fed.buffer));
      Reply(rest.state, fed.out + rest.out) == RenderAll(decode, st, Sse.Parse(buffer + Concat(chunks)))
    decreases |chunks|
  {
    hide RenderAll;
    if chunks == [] {
      assert buffer + Concat(chunks) == buffer;
    } else {
      var whole, later := buffer + chunks[0], Concat(chunks[1..]);
      assert buffer + Concat(chunks) == whole + later;
      ParseAtCut(whole, later);
      var one := Feed(decode, st, buffer, chunks[0]);
      RenderAllAppend(decode, st, Sse.Parse(whole[..Cut(whole)]), Sse.Parse(one.buffer + later));
      FeedRendersWhole(decode, one.state, one.buffer, chunks[1..]);
      var fed := FeedAll(decode, one.state, one.buffer, chunks[1..]);
      var rest := RenderAll(decode, fed.state, Sse.Parse(fed.buffer));
      assert one.out + (fed.out + rest.out) == (one.out + fed.out) + rest.out;
    }
  }

  /** Pushing any chunks and finishing renders the events of their concatenation, in order, then wraps up. */
  lemma ChunkingIndependence(decode: Decoder, st: State, chunks: seq<string>)
    ensures End(decode, FeedAll(decode, st, "", chunks))
      == var r := RenderAll(decode, st, Sse.Parse(Concat(chunks))); Then(r, Wrap(r.state))
  {
    FeedRendersWhole(decode, st, "", chunks);
    assert "" + Concat(chunks) == Concat(chunks);
  }

  /** Two cuts of the same bytes are told apart by nothing that comes out. */
  lemma SameBytesSameFrames(decode: Decoder, st: State, left: seq<string>, right: seq<string>)
    requires Concat(left) == Concat(right)
    ensures End(decode, FeedAll(decode, st, "", left)) == End(decode, FeedAll(decode, st, "", right))
  {
    ChunkingIndependence(decode, st, left);
    ChunkingIndependence(decode, st, right);
  }

  /** Finishing needs no blank line: it sends what is still held as if one had been pushed behind it. */
  lemma FinishReadsTheRest(decode: Decoder, st: State, chunks: seq<string>)
    ensures End(decode, FeedAll(decode, st, "", chunks)) == End(decode, FeedAll(decode, st, "", chunks + [Sse.BLANK]))
  {
    hide End, FeedAll, RenderAll, Wrap, Sse.Parse;
    ChunkingIndependence(decode, st, chunks);
    ChunkingIndependence(decode, st, chunks + [Sse.BLANK]);
    ConcatPushed(chunks, Sse.BLANK);
    Sse.ParseUnterminated(Concat(chunks));
  }

  lemma {:induction false} ConcatPushed(chunks: seq<string>, chunk: string)
    ensures Concat(chunks + [chunk]) == Concat(chunks) + chunk
  {
    if chunks == [] {
      assert [chunk][1..] == [];
      assert chunk + "" == "" + chunk;
    } else {
      assert (chunks + [chunk])[1..] == chunks[1..] + [chunk];
      ConcatPushed(chunks[1..], chunk);
      assert chunks[0] + (Concat(chunks[1..]) + chunk) == (chunks[0] + Concat(chunks[1..])) + chunk;
    }
  }

  // ---------------------------------------------------------------- decoded events

  function Decoded(decode: Decoder, events: seq<Sse.SseEvent>): seq<Upstream> {
    if events == [] then []
    else (match decode(events[0].data) case None => [] case Some(u) => [u]) + Decoded(decode, events[1..])
  }

  lemma {:induction false} RunAppend(st: State, a: seq<Upstream>, b: seq<Upstream>)
    ensures Run(st, a + b) == Then(Run(st, a), Run(Run(st, a).state, b))
    decreases |a|
  {
    hide Step;
    if a == [] {
      assert a + b == b;
    } else {
      assert (a + b)[0] == a[0] && (a + b)[1..] == a[1..] + b;
      var first := Step(st, a[0]);
      RunAppend(first.state, a[1..], b);
      var mid := Run(first.state, a[1..]);
      assert first.out + (mid.out + Run(mid.state, b).out) == (first.out + mid.out) + Run(mid.state, b).out;
    }
  }

  lemma RunOne(st: State, event: Upstream)
    ensures Run(st, [event]) == Step(st, event)
  {
    var first := Step(st, event);
    assert [event][1..] == [];
    assert first.out + [] == first.out;
  }

  /** Rendering wire events is running what they decode to; text that is not JSON is skipped. */
  lemma {:induction false} RenderIsRun(decode: Decoder, st: State, events: seq<Sse.SseEvent>)
    ensures RenderAll(decode, st, events) == Run(st, Decoded(decode, events))
    decreases |events|
  {
    if events != [] {
      var first := RenderEvent(decode, st, events[0]);
      RenderIsRun(decode, first.state, events[1..]);
      var rest := Run(first.state, Decoded(decode, events[1..]));
      match decode(events[0].data) {
        case None =>
          assert [] + Decoded(decode, events[1..]) == Decoded(decode, events[1..]);
          assert [] + rest.out == rest.out;
        case Some(u) =>
          var us := Decoded(decode, events);
          assert us[0] == u && us[1..] == Decoded(decode, events[1..]);
      }
    }
  }
}
