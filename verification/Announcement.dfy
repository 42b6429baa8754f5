/** How often a stream announces `response.created`, for every run of events. */
module Announcement {
  import opened Text
  import opened Protocol
  import opened TranslatorSpec
  import opened Chunking
  import opened Terminal

  predicate IsCreated(f: Frame) {
    f.Event? && f.body.CreatedBody?
  }

  /** The announcements among the frames sent. */
  function Announced(frames: seq<Frame>): nat {
    if frames == [] then 0 else (if IsCreated(frames[0]) then 1 else 0) + Announced(frames[1..])
  }

  /** The events that reach the translator: up to the first one that ends the stream. */
  function Live(events: seq<Upstream>): seq<Upstream> {
    if events == [] || EndsStream(events[0]) then events[..if events == [] then 0 else 1]
    else [events[0]] + Live(events[1..])
  }

  function Starts(events: seq<Upstream>): nat {
    if events == [] then 0 else (if events[0].MessageStart? then 1 else 0) + Starts(events[1..])
  }

  /** A ping or an error with no `message_start` before it. */
  predicate Early(events: seq<Upstream>) {
    exists k :: 0 <= k < |events| && (events[k].Ping? || events[k].ErrorEvent?)
      && forall j :: 0 <= j < k ==> !events[j].MessageStart?
  }

  lemma {:induction false} AnnouncedJoins(a: seq<Frame>, b: seq<Frame>)
    ensures Announced(a + b) == Announced(a) + Announced(b)
  {
    if a == [] {
      assert a + b == b;
    } else {
      AnnouncedJoins(a[1..], b);
      assert (a + b)[1..] == a[1..] + b;
    }
  }

  lemma {:induction false} NoneAnnounced(frames: seq<Frame>)
    requires forall k :: 0 <= k < |frames| ==> !IsCreated(frames[k])
    ensures Announced(frames) == 0
  {
    if frames != [] {
      NoneAnnounced(frames[1..]);
    }
  }

  lemma {:induction false} ClosingIsSilent(st: State, items: seq<Item>, position: nat)
    requires position <= |items|
    ensures Announced(CloseItemsFrom(st, items, position).out) == 0
    decreases |items| - position
  {
    if position < |items| {
      var one := CloseItem(st, items[position], position);
      NoneAnnounced(one.out);
      ClosingIsSilent(one.state, items, position + 1);
      AnnouncedJoins(one.out, CloseItemsFrom(one.state, items, position + 1).out);
    }
  }

  lemma CompleteAnnouncesNothing(st: State)
    ensures Announced(Complete(st).out) == 0
  {
    if !st.Closed() {
      var text := CloseText(st.(phase := st.phase.(finished := true)));
      var rest := CloseItemsFrom(text.state, text.state.items, 0);
      NoneAnnounced(text.out);
      ClosingIsSilent(text.state, text.state.items, 0);
      AnnouncedJoins(text.out, rest.out);
      var last := Complete(st).out[|text.out + rest.out|..];
      assert Complete(st).out == text.out + rest.out + last;
      NoneAnnounced(last);
      AnnouncedJoins(text.out + rest.out, last);
    }
  }

  lemma OpeningAnnounces(st: State, rest: seq<Frame>)
    requires forall k :: 0 <= k < |rest| ==> !IsCreated(rest[k])
    ensures Announced(Announce(st).out + rest) == if st.phase.started then 0 else 1
  {
    AnnouncedJoins(Announce(st).out, rest);
    NoneAnnounced(rest);
  }

  lemma PingAnnounces(st: State)
    ensures Announced(OnPing(st).out) == if st.phase.started then 0 else 1
  {
    hide Announced;
    var noted := st.(phase := st.phase.(sawKeepalive := true));
    var begun := Announce(noted);
    OpeningAnnounces(noted, OnPing(st).out[|begun.out|..]);
    assert OnPing(st).out == begun.out + OnPing(st).out[|begun.out|..];
  }

  lemma FailAnnounces(st: State, kind: string, message: string)
    requires !st.Closed()
    ensures Announced(FailWith(st, kind, message).out) == if st.phase.started then 0 else 1
  {
    hide Announced, FinalOutput;
    var all := FailWith(st, kind, message).out;
    OpeningAnnounces(st, all[|Announce(st).out|..]);
    assert all == Announce(st).out + all[|Announce(st).out|..];
  }

  lemma StepAnnounces(st: State, event: Upstream)
    requires !st.Closed()
    ensures Announced(Step(st, event).out)
         == if event.MessageStart? || ((event.Ping? || event.ErrorEvent?) && !st.phase.started) then 1 else 0
    ensures !EndsStream(event) ==>
      && !Step(st, event).state.Closed()
      && (Step(st, event).state.phase.started <==> st.phase.started || event.MessageStart? || event.Ping?)
  {
    hide Start, Piece, OnStop, OnPing, Complete, FailWith, Announced;
    if !EndsStream(event) {
      OnlySomeEnd(st, event);
    }
    match event {
      case MessageStop => CompleteAnnouncesNothing(st);
      case Ping => PingAnnounces(st);
      case ErrorEvent(kind, message) => FailAnnounces(st, kind.GetOr("api_error"), message.GetOr("upstream error"));
      case MessageStart(model, usage) =>
        AnnouncedOne(Step(st, event).out);
      case _ => OtherAnnounces(st, event);
    }
  }

  lemma OnlySomeEnd(st: State, event: Upstream)
    requires !st.Closed() && !EndsStream(event)
    ensures !Step(st, event).state.Closed()
    ensures Step(st, event).state.phase.started <==> st.phase.started || event.MessageStart? || event.Ping?
  {
    hide Replace, FindItem, InitialArguments, CallId, CompactionId;
  }

  lemma OtherAnnounces(st: State, event: Upstream)
    requires !st.Closed() && !EndsStream(event) && !event.MessageStart? && !event.Ping?
    ensures Announced(Step(st, event).out) == 0
  {
    hide Replace, FindItem, InitialArguments, CallId, CompactionId, Announced;
    NoneAnnounced(Step(st, event).out);
  }

  lemma AnnouncedOne(frames: seq<Frame>)
    requires |frames| == 1 && IsCreated(frames[0])
    ensures Announced(frames) == 1
  {
    assert Announced(frames[1..]) == 0;
  }

  lemma {:induction false} ClosedSaysNothing(st: State, events: seq<Upstream>)
    requires st.Closed()
    ensures Run(st, events).out == []
    decreases |events|
  {
    if events != [] {
      ClosedSaysNothing(st, events[1..]);
    }
  }

  /** Every run of an open stream announces itself once for each `message_start` that reaches it, and once more
      when a ping or an error reaches it unannounced. */
  lemma {:induction false} RunAnnounces(st: State, events: seq<Upstream>)
    requires !st.Closed()
    ensures Announced(Run(st, events).out)
         == Starts(Live(events)) + if !st.phase.started && Early(Live(events)) then 1 else 0
    decreases |events|
  {
    hide Step;
    if events != [] {
      var first := Step(st, events[0]);
      var rest := Run(first.state, events[1..]);
      StepAnnounces(st, events[0]);
      AnnouncedJoins(first.out, rest.out);
      if EndsStream(events[0]) {
        StepShape(st, events[0]);
        ClosedSaysNothing(first.state, events[1..]);
        assert Live(events) == [events[0]];
        assert Early([events[0]]) <==> events[0].ErrorEvent? by {
          assert [events[0]][0] == events[0];
        }
        assert Starts([events[0]][1..]) == 0;
        assert Announced(rest.out) == 0;
      } else {
        RunAnnounces(first.state, events[1..]);
        EarlyLater(events[0], Live(events[1..]));
        assert Live(events)[1..] == Live(events[1..]);
      }
    }
  }

  lemma EarlyLater(first: Upstream, rest: seq<Upstream>)
    ensures Early([first] + rest) <==>
      first.Ping? || first.ErrorEvent? || (!first.MessageStart? && Early(rest))
  {
    var events := [first] + rest;
    if first.Ping? || first.ErrorEvent? {
      assert events[0] == first;
    } else {
      if Early(events) {
        var k :| 0 <= k < |events| && (events[k].Ping? || events[k].ErrorEvent?)
          && forall j :: 0 <= j < k ==> !events[j].MessageStart?;
        assert rest[k - 1] == events[k];
        assert events[0] == first;
        assert forall j :: 0 <= j < k - 1 ==> rest[j] == events[j + 1];
      }
      if !first.MessageStart? && Early(rest) {
        var k :| 0 <= k < |rest| && (rest[k].Ping? || rest[k].ErrorEvent?)
          && forall j :: 0 <= j < k ==> !rest[j].MessageStart?;
        assert events[k + 1] == rest[k];
        assert forall j :: 0 < j <= k ==> events[j] == rest[j - 1];
      }
    }
  }

  lemma WrapAnnouncesNothing(st: State)
    ensures Announced(Wrap(st).out) == 0
  {
    if st.phase.started && !st.Closed() {
      if st.HasDeliverable() {
        CompleteAnnouncesNothing(st);
      } else {
        NoneAnnounced(Wrap(st).out);
      }
    }
  }

  /** A new translator's whole stream, ended or cut off, announces itself at most once exactly when at most one
      `message_start` reaches it and none does behind a ping that came first. */
  lemma AnnouncedOnceExactly(id: string, model: string, events: seq<Upstream>)
    ensures var r := Run(Fresh(id, model), events);
      var frames := r.out + Wrap(r.state).out;
      && (Announced(frames) <= 1 <==>
          Starts(Live(events)) == 0 || (Starts(Live(events)) == 1 && !Early(Live(events))))
      && (Announced(frames) == 0 <==> Starts(Live(events)) == 0 && !Early(Live(events)))
  {
    var r := Run(Fresh(id, model), events);
    RunAnnounces(Fresh(id, model), events);
    WrapAnnouncesNothing(r.state);
    AnnouncedJoins(r.out, Wrap(r.state).out);
  }

  /** Such a stream: a ping before `message_start` announces the response, and `message_start` again. */
  lemma PingBeforeStart(id: string, model: string, started: Option<string>, usage: Option<Usage>)
    ensures Announced(Run(Fresh(id, model), [Ping, MessageStart(started, usage)]).out) == 2
  {
    var events := [Ping, MessageStart(started, usage)];
    RunAnnounces(Fresh(id, model), events);
    assert Live(events) == events by {
      assert events[1..] == [MessageStart(started, usage)];
      assert Live([MessageStart(started, usage)][1..]) == [];
    }
    EarlyLater(Ping, [MessageStart(started, usage)]);
    assert events == [Ping] + [MessageStart(started, usage)];
    assert Starts(events[1..]) == 1 by {
      assert events[1..][1..] == [];
    }
  }
}
