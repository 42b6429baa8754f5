/** What the frames say that open a response or report it in progress. */
module Keepalive {
  import opened Text
  import opened Protocol
  import opened TranslatorSpec
  import opened Chunking
  import opened Terminal
  import opened Announcement
  import opened ToolRouting
  import opened EventFacts

  /** The ids of the items announced, in order, but for the message `text`. */
  function AnnouncedIds(frames: seq<Frame>, text: string): seq<string> {
    if frames == [] then [] else AnnouncedId(frames[0], text) + AnnouncedIds(frames[1..], text)
  }

  function AnnouncedId(f: Frame, text: string): seq<string> {
    if f.Event? && f.body.ItemAdded? && f.body.item.id != text then [f.body.item.id] else []
  }

  function IdsOf(items: seq<Item>): seq<string> {
    if items == [] then [] else IdsOf(items[..|items| - 1]) + [items[|items| - 1].id]
  }

  lemma {:induction false} AnnouncedThen(a: seq<Frame>, b: seq<Frame>, text: string)
    ensures AnnouncedIds(a + b, text) == AnnouncedIds(a, text) + AnnouncedIds(b, text)
  {
    hide AnnouncedId;
    if a == [] {
      assert a + b == b;
    } else {
      AnnouncedThen(a[1..], b, text);
      assert (a + b)[0] == a[0] && (a + b)[1..] == a[1..] + b;
      var x, y, z := AnnouncedId(a[0], text), AnnouncedIds(a[1..], text), AnnouncedIds(b, text);
      assert x + (y + z) == (x + y) + z;
    }
  }

  lemma {:induction false} NothingAnnounced(frames: seq<Frame>, text: string)
    requires forall k :: 0 <= k < |frames| ==> AnnouncedId(frames[k], text) == []
    ensures AnnouncedIds(frames, text) == []
  {
    if frames != [] {
      NothingAnnounced(frames[1..], text);
    }
  }

  lemma {:induction false} SameIds(a: seq<Item>, b: seq<Item>)
    requires |a| == |b| && forall i :: 0 <= i < |a| ==> a[i].id == b[i].id
    ensures IdsOf(a) == IdsOf(b)
  {
    if a != [] {
      SameIds(a[..|a| - 1], b[..|b| - 1]);
    }
  }

  lemma IdsPushed(items: seq<Item>, item: Item)
    ensures IdsOf(items + [item]) == IdsOf(items) + [item.id]
  {
    assert (items + [item])[..|items|] == items;
  }

  /** A step announces the items it stores, and no others. */
  ghost predicate Listed(st: State, r: Reply) {
    && r.state.id == st.id
    && IdsOf(r.state.items) == IdsOf(st.items) + AnnouncedIds(r.out, "msg_" + st.id)
  }

  lemma ListedThen(st: State, a: Reply, b: Reply)
    requires Listed(st, a) && Listed(a.state, b)
    ensures Listed(st, Then(a, b))
  {
    hide IdsOf, AnnouncedIds;
    var text := "msg_" + st.id;
    AnnouncedThen(a.out, b.out, text);
    var x, y, z := IdsOf(st.items), AnnouncedIds(a.out, text), AnnouncedIds(b.out, text);
    assert (x + y) + z == x + (y + z);
  }

  /** Nothing new is stored, and nothing but the message is announced. */
  lemma QuietListed(st: State, r: Reply)
    requires r.state.id == st.id && |r.state.items| == |st.items|
    requires forall i :: 0 <= i < |st.items| ==> r.state.items[i].id == st.items[i].id
    requires forall k :: 0 <= k < |r.out| ==> AnnouncedId(r.out[k], "msg_" + st.id) == []
    ensures Listed(st, r)
  {
    hide IdsOf, AnnouncedIds, AnnouncedId;
    SameIds(st.items, r.state.items);
    NothingAnnounced(r.out, "msg_" + st.id);
    assert IdsOf(st.items) + [] == IdsOf(st.items);
  }

  lemma OpeningListed(st: State, r: Reply, item: Item)
    requires r.state.id == st.id && r.state.items == st.items + [item] && item.id != "msg_" + st.id
    requires r.out != [] && AnnouncedId(r.out[0], "msg_" + st.id) == [item.id]
    requires forall k :: 0 < k < |r.out| ==> AnnouncedId(r.out[k], "msg_" + st.id) == []
    ensures Listed(st, r)
  {
    hide IdsOf, AnnouncedId;
    IdsPushed(st.items, item);
    NothingAnnounced(r.out[1..], "msg_" + st.id);
    assert [item.id] + [] == [item.id];
  }

  lemma CompactionListed(st: State, text: string)
    ensures Listed(st, CompactionDelta(st, text))
  {
    hide Listed;
    QuietListed(st, CompactionDelta(st, text));
  }

  lemma StartCompactionListed(st: State, index: nat, content: Option<string>)
    ensures Listed(st, StartCompaction(st, index, content))
  {
    hide Listed, CompactionDelta;
    var begun := OpenCompaction(st, index);
    assert |CompactionId(st, index)| > |"msg_" + st.id|;
    OpeningListed(st, begun, Message(CompactionId(st, index), InProgress, None));
    if content.Some? {
      CompactionListed(begun.state, content.value);
      ListedThen(st, begun, CompactionDelta(begun.state, content.value));
    }
  }

  lemma StartToolListed(st: State, index: Option<nat>, id: Option<string>, name: string, input: Option<string>)
    ensures Listed(st, StartTool(st, index, id, name, input))
  {
    hide Listed, InitialArguments, CallId, FirstArguments;
    var callId, initial := CallId(st, id), InitialArguments(input);
    var begun := OpenTool(st, index, callId, name);
    var item := FunctionCall("fc_" + callId, InProgress, callId, name, "");
    assert item.id[0] == 'f' && ("msg_" + st.id)[0] == 'm';
    OpeningListed(st, begun, item);
    FirstListed(begun.state, item.id, st.next, initial);
    ListedThen(st, begun, FirstArguments(begun.state, item.id, st.next, initial));
  }

  lemma FirstListed(st: State, itemId: string, output: nat, initial: string)
    ensures Listed(st, FirstArguments(st, itemId, output, initial))
  {
    hide Listed;
    QuietListed(st, FirstArguments(st, itemId, output, initial));
  }

  lemma StepListed(st: State, event: Upstream)
    requires !st.Closed() && !EndsStream(event)
    ensures Listed(st, Step(st, event))
  {
    hide Listed, StartTool, StartCompaction, CompactionDelta, Piece;
    match event {
      case BlockStart(index, ToolUse(id, name, input)) => StartToolListed(st, index, id, name, input);
      case BlockStart(index, CompactionBlock(content)) => StartCompactionListed(st, index.GetOr(0), content);
      case BlockDelta(index, CompactionPiece(Some(text))) =>
        CompactionListed(st, text);
        PieceOfCompaction(st, index, text);
      case BlockStart(_, OtherBlock) => QuietListed(st, Silent(st));
      case BlockDelta(index, delta) => PieceListed(st, index, delta);
      case _ => OtherListed(st, event);
    }
  }

  lemma PieceOfCompaction(st: State, index: Option<nat>, text: string)
    ensures Piece(st, index, CompactionPiece(Some(text))) == CompactionDelta(st, text)
  {}

  lemma PieceListed(st: State, index: Option<nat>, delta: Delta)
    requires !(delta.CompactionPiece? && delta.content.Some?)
    ensures Listed(st, Piece(st, index, delta))
  {
    hide Listed, ToolOrdinal, FindItem;
    QuietListed(st, Piece(st, index, delta));
  }

  lemma OtherListed(st: State, event: Upstream)
    requires !st.Closed() && !EndsStream(event) && !event.BlockStart? && !event.BlockDelta?
    ensures Listed(st, Step(st, event))
  {
    hide Listed, FindItem;
    QuietListed(st, Step(st, event));
  }

  lemma {:induction false} RunListed(st: State, events: seq<Upstream>)
    requires !st.Closed() && Ongoing(events)
    ensures Listed(st, Run(st, events))
    decreases |events|
  {
    hide Listed, Step;
    if events == [] {
      QuietListed(st, Silent(st));
    } else {
      assert !EndsStream(events[0]);
      var first := Step(st, events[0]);
      OnlySomeEnd(st, events[0]);
      StepListed(st, events[0]);
      RunListed(first.state, events[1..]);
      ListedThen(st, first, Run(first.state, events[1..]));
    }
  }

  // ---------------------------------------------------------------- what is said

  /** `message_start` announces the response with the model and the usage it has named, and no output yet. */
  lemma StartSays(id: string, model: string, before: seq<Upstream>, named: Option<string>, usage: Option<Usage>)
    requires Ongoing(before)
    ensures var r, events := Run(Fresh(id, model), before), before + [MessageStart(named, usage)];
      Run(Fresh(id, model), events).out
        == r.out + [Event(r.state.sequence, CreatedBody(FinalResponse(id, model, events, RunningResponse, [])))]
  {
    hide Run, LastNamed, LastModel, LastReason, JoinedIn, Any;
    var st0, event := Fresh(id, model), MessageStart(named, usage);
    RunReflects(st0, before);
    RunReflects(st0, before + [event]);
    var r := Run(st0, before);
    RunAppend(st0, before, [event]);
    RunOne(r.state, event);
    var one := Step(r.state, event);
    assert one.out == [one.out[0]];
  }

  /** A ping reports the response in progress with what the events have named so far, listing the items announced so
      far but for the message, in order; if nothing had started the response, it announces it first. */
  lemma PingSays(id: string, model: string, before: seq<Upstream>) returns (listed: seq<Item>)
    requires Ongoing(before)
    ensures listed == Run(Fresh(id, model), before).state.items
    ensures IdsOf(listed) == AnnouncedIds(Run(Fresh(id, model), before).out, "msg_" + id)
    ensures var r := Run(Fresh(id, model), before); var n := r.state.sequence;
      var created := CreatedBody(FinalResponse(id, model, before, RunningResponse, []));
      var beat := InProgressBody(FinalResponse(id, model, before, RunningResponse, listed));
      Run(Fresh(id, model), before + [Ping]).out
        == r.out + if Any(before, Begins) then [Event(n, beat)] else [Event(n, created), Event(n + 1, beat)]
  {
    hide Run, Step, Any, IdsOf, AnnouncedIds, FinalResponse, LastNamed, LastModel, LastReason, JoinedIn;
    var st0 := Fresh(id, model);
    RunReflects(st0, before);
    RunListed(st0, before);
    var r := Run(st0, before);
    RunAppend(st0, before, [Ping]);
    RunOne(r.state, Ping);
    listed := r.state.items;
    NothingStored();
    assert [] + AnnouncedIds(r.out, "msg_" + id) == AnnouncedIds(r.out, "msg_" + id);
    PingStep(r.state);
    BaseIsRead(id, model, before, r.state, RunningResponse, []);
    BaseIsRead(id, model, before, r.state, RunningResponse, listed);
  }

  lemma PingStep(st: State)
    requires !st.Closed()
    ensures var n, created, beat := st.sequence, CreatedBody(st.Base(RunningResponse, [])),
                                    InProgressBody(st.Base(RunningResponse, st.items));
      Step(st, Ping).out
        == if st.phase.started then [Event(n, beat)] else [Event(n, created), Event(n + 1, beat)]
  {
    var one := Step(st, Ping);
    if st.phase.started {
      assert one.out == [one.out[0]];
    } else {
      assert one.out == [one.out[0], one.out[1]];
    }
  }

  /** What every response object says besides its output is read from the events. */
  lemma BaseIsRead(id: string, model: string, events: seq<Upstream>, st: State, status: ResponseStatus,
                   output: seq<Item>)
    requires Reflects(Fresh(id, model), events, st)
    ensures st.Base(status, output) == FinalResponse(id, model, events, status, output)
  {
    hide LastNamed, LastModel, LastReason, JoinedIn, Any;
  }

  lemma NothingStored()
    ensures IdsOf([]) == []
  {}
}
