/** A 4xx is never answered once the model has said anything. */
module PeekSafety {
  import opened Text
  import opened Protocol
  import opened TranslatorSpec
  import opened Chunking
  import opened Terminal
  import opened PeekLoop
  import Sse

  /** A frame that carries model output: text, reasoning, or a call. */
  predicate Says(f: Frame) {
    f.Event? && match f.body
      case OutputTextDelta(_, _, delta) => delta != ""
      case ReasoningDelta(_, _, delta) => delta != ""
      case ItemAdded(_, item) => item.FunctionCall?
      case _ => false
  }

  ghost predicate Mute(fs: seq<Frame>) {
    forall k :: 0 <= k < |fs| ==> !Says(fs[k])
  }

  /** A compaction has its item among the stored ones. */
  predicate CompactionStored(st: State) {
    st.cmp.itemId.Some? ==> st.items != []
  }

  /** What a call keeps: whatever the model says is delivered, and what is delivered stays so. */
  ghost predicate Delivers(st: State, r: Reply) {
    && CompactionStored(r.state)
    && (st.HasDeliverable() || !Mute(r.out) ==> r.state.HasDeliverable())
  }

  lemma DeliversThen(st: State, a: Reply, b: Reply)
    requires Delivers(st, a) && Delivers(a.state, b)
    ensures Delivers(st, Then(a, b))
  {
    if Mute(a.out) && Mute(b.out) {
      assert Mute(a.out + b.out);
    }
  }

  lemma {:induction false} ClosingDelivers(st: State, items: seq<Item>, position: nat)
    requires position <= |items| && CompactionStored(st)
    ensures Delivers(st, CloseItemsFrom(st, items, position)) && Mute(CloseItemsFrom(st, items, position).out)
    decreases |items| - position
  {
    if position < |items| {
      var one := CloseItem(st, items[position], position);
      assert Delivers(st, one) && Mute(one.out);
      ClosingDelivers(one.state, items, position + 1);
      DeliversThen(st, one, CloseItemsFrom(one.state, items, position + 1));
    }
  }

  lemma CompleteDelivers(st: State)
    requires CompactionStored(st)
    ensures Delivers(st, Complete(st))
  {
    hide FinalOutput, CloseItemsFrom;
    if !st.Closed() {
      var marked := st.(phase := st.phase.(finished := true));
      var text := CloseText(marked);
      ClosingDelivers(text.state, text.state.items, 0);
      var rest := CloseItemsFrom(text.state, text.state.items, 0);
      assert Delivers(st, text);
      DeliversThen(st, text, rest);
      var closed := CloseOpenItems(marked);
      var output := FinalOutput(closed.state);
      var body := if st.stopReason == Some("max_tokens")
                  then IncompleteBody(closed.state.Base(IncompleteResponse, output))
                  else CompletedBody(closed.state.Base(CompletedResponse, output));
      assert Delivers(closed.state, Finally(closed.state, body));
      DeliversThen(st, closed, Finally(closed.state, body));
    }
  }

  lemma FailDelivers(st: State, kind: string, message: string)
    requires CompactionStored(st)
    ensures Delivers(st, FailWith(st, kind, message))
  {
    hide FinalOutput;
  }

  lemma CompactionDelivers(st: State, text: string)
    requires CompactionStored(st)
    ensures Delivers(st, CompactionDelta(st, text))
  {}

  lemma StartDelivers(st: State, index: Option<nat>, block: Block)
    requires CompactionStored(st)
    ensures Delivers(st, Start(st, index, block))
  {
    hide CallId, InitialArguments, CompactionId, FindItem;
  }

  lemma StepDelivers(st: State, event: Upstream)
    requires CompactionStored(st)
    ensures Delivers(st, Step(st, event))
  {
    hide Delivers, Start, Complete, FailWith, CompactionDelta;
    if st.Closed() {
      SilentDelivers(st, st);
    } else {
      match event {
        case BlockDelta(_, CompactionPiece(Some(text))) => CompactionDelivers(st, text);
        case BlockStart(index, block) => StartDelivers(st, index, block);
        case MessageStop => CompleteDelivers(st);
        case ErrorEvent(kind, message) => FailDelivers(st, kind.GetOr("api_error"), message.GetOr("upstream error"));
        case _ => OtherDelivers(st, event);
      }
    }
  }

  lemma SilentDelivers(st: State, st1: State)
    requires CompactionStored(st) && st1.items == st.items && st1.msg == st.msg && st1.thinking == st.thinking
    requires st1.cmp.itemId == st.cmp.itemId
    ensures Delivers(st, Silent(st1))
  {}

  lemma OtherDelivers(st: State, event: Upstream)
    requires CompactionStored(st) && !st.Closed()
    requires !event.BlockStart? && !event.MessageStop? && !event.ErrorEvent?
    requires !(event.BlockDelta? && event.delta.CompactionPiece? && event.delta.content.Some?)
    ensures Delivers(st, Step(st, event))
  {
    hide FindItem;
  }

  lemma RenderOneDelivers(decode: Decoder, st: State, event: Sse.SseEvent)
    requires CompactionStored(st)
    ensures Delivers(st, RenderEvent(decode, st, event))
  {
    hide Step, Delivers;
    SilentDelivers(st, st);
    if decode(event.data).Some? {
      StepDelivers(st, decode(event.data).value);
    }
  }

  lemma {:induction false} RenderDelivers(decode: Decoder, st: State, events: seq<Sse.SseEvent>)
    requires CompactionStored(st)
    ensures Delivers(st, RenderAll(decode, st, events))
    decreases |events|
  {
    hide RenderEvent, Mute;
    if events == [] {
      SilentDelivers(st, st);
    } else {
      var first := RenderEvent(decode, st, events[0]);
      RenderOneDelivers(decode, st, events[0]);
      RenderDelivers(decode, first.state, events[1..]);
      DeliversThen(st, first, RenderAll(decode, first.state, events[1..]));
    }
  }

  lemma WrapDelivers(st: State)
    requires CompactionStored(st)
    ensures Delivers(st, Wrap(st))
  {
    hide Delivers, Complete, FailWith;
    SilentDelivers(st, st);
    CompleteDelivers(st);
    FailDelivers(st, "api_error", "upstream stream ended without completion");
  }

  lemma EndDelivers(decode: Decoder, st: State, buffer: string)
    requires CompactionStored(st)
    ensures Delivers(st, End(decode, Fed(st, buffer, [])))
  {
    hide RenderAll, Wrap, Mute;
    var rest := RenderAll(decode, st, Sse.Parse(buffer));
    RenderDelivers(decode, st, Sse.Parse(buffer));
    WrapDelivers(rest.state);
    DeliversThen(st, rest, Wrap(rest.state));
    assert [] + rest.out == rest.out;
  }

  lemma FrameDelivers(decode: Decoder, st: State, buffer: string, frame: BodyFrame)
    requires CompactionStored(st)
    ensures var one := OneFrame(decode, st, buffer, frame); Delivers(st, Reply(one.state, one.out))
  {
    hide RenderAll, FailWith, Delivers;
    match frame {
      case Data(bytes) =>
        var whole := buffer + bytes;
        RenderDelivers(decode, st, Sse.Parse(whole[..Cut(whole)]));
      case Broken => FailDelivers(st, "api_error", "upstream stream failed");
    }
  }

  lemma {:induction false} WalkDelivers(decode: Decoder, st: State, buffer: string, body: seq<BodyFrame>, k: nat)
    requires CompactionStored(st)
    ensures var w := Walk(decode, st, buffer, body, k); Delivers(st, Reply(w.state, w.out))
    decreases |body|
  {
    hide OneFrame, Mute, End;
    if k == 0 {
      SilentDelivers(st, st);
    } else if body == [] {
      EndDelivers(decode, st, buffer);
    } else {
      var one := OneFrame(decode, st, buffer, body[0]);
      FrameDelivers(decode, st, buffer, body[0]);
      if body[0].Data? {
        WalkDelivers(decode, one.state, one.buffer, body[1..], k - 1);
        var rest := Walk(decode, one.state, one.buffer, body[1..], k - 1);
        DeliversThen(st, Reply(one.state, one.out), Reply(rest.state, rest.out));
      }
    }
  }

  /** When a 4xx is answered after `k` steps of any body, the translator has failed, and nothing it has sent so far
      carries text, reasoning or a call. */
  lemma RefusalIsBeforeOutput(decode: Decoder, classify: Classifier, id: string, model: string, body: seq<BodyFrame>,
                              k: nat)
    requires HttpError(Walk(decode, Fresh(id, model), "", body, k).state, classify).Some?
    ensures var w := Walk(decode, Fresh(id, model), "", body, k);
      && w.state.phase.failed && Mute(w.out)
      && 400 <= HttpError(w.state, classify).value < 500
  {
    hide Walk, Mute;
    WalkDelivers(decode, Fresh(id, model), "", body, k);
  }
}
