/** The session history over every run of monitor events. */
module HistoryRuns {
  import opened Text
  import opened Metrics
  import opened Monitoring
  import H = OutputHistory
  import opened OutputHistory

  /** The sessions of active and recent requests. */
  function Shown(active: map<string, Active>, recent: seq<Row>): set<Key> {
    (set id | id in active :: active[id].session) + SessionsOf(recent)
  }

  function SessionsOf(recent: seq<Row>): set<Key> {
    set row | row in recent :: row.session
  }

  /** What one event's output tokens, if any, do to the history while these sessions are shown. */
  ghost predicate HistoryStep(before: History, after: History, emission: Option<Emission>, shown: set<Key>, now: Now) {
    match emission
    case None => after == before
    case Some(e) =>
      var sample := Sample(e.session, e.stamp, e.tokens, now.wall);
      exists victim :: Proper(before, sample, shown, victim) && after == H.Recorded(before, sample, victim)
  }

  /** The sessions shown while the event's tokens are recorded: a request that ends is between its two rows. */
  ghost function ShownDuring(c: Core, e: Event): set<Key> {
    var ends := e.RequestCompleted? || e.RequestFailed? || e.RequestAbandoned?;
    Shown(if ends then c.active - {e.id} else c.active, c.recent)
  }

  const NOTHING_RECORDED: History := History(map[], None)

  /** The state and the emission of the n-th event of a run. */
  function CoreAt(limit: nat, events: seq<Timestamped>, n: nat): (c: Core)
    requires n <= |events|
    ensures Sized(c.metrics)
  {
    Monitoring.After(Fresh(limit), events[..n])
  }

  function EmissionAt(limit: nat, events: seq<Timestamped>, n: nat): Option<Emission>
    requires n < |events|
  {
    Monitoring.Apply(CoreAt(limit, events, n), events[n].event, events[n].now).emission
  }

  /** The histories a monitor goes through while it applies these events. */
  ghost predicate Histories(limit: nat, events: seq<Timestamped>, pasts: seq<History>) {
    && |pasts| == |events| + 1 && pasts[0] == NOTHING_RECORDED
    && forall n :: 0 <= n < |events| ==>
         HistoryStep(pasts[n], pasts[n + 1], EmissionAt(limit, events, n),
                     ShownDuring(CoreAt(limit, events, n), events[n].event), events[n].now)
  }

  /** The wall clock does not go back from event to event. */
  predicate Forward(events: seq<Timestamped>) {
    forall i, j :: 0 <= i <= j < |events| ==> events[i].now.wall <= events[j].now.wall
  }

  function SampleOf(e: Emission, now: Now): Sample {
    Sample(e.session, e.stamp, e.tokens, now.wall)
  }

  /** The samples the first n events hand to the history. */
  function Samples(limit: nat, events: seq<Timestamped>, n: nat): seq<Sample>
    requires n <= |events|
  {
    if n == 0 then []
    else
      Samples(limit, events, n - 1)
      + match EmissionAt(limit, events, n - 1)
        case None => []
        case Some(e) => [SampleOf(e, events[n - 1].now)]
  }

  function SamplesIn(calls: seq<Call>): seq<Sample> {
    if calls == [] then [] else SamplesIn(calls[..|calls| - 1]) + [calls[|calls| - 1].sample]
  }

  lemma {:induction false} OrderlyOneMore(t: Traced, calls: seq<Call>, call: Call)
    requires Orderly(t, calls)
    requires var end := H.After(t, calls);
      end.clock <= H.BucketOf(call.sample.now) && Proper(end.history, call.sample, call.visible, call.victim)
    ensures Orderly(t, calls + [call])
    decreases |calls|
  {
    hide H.Next, Proper, H.BucketOf;
    if calls == [] {
      assert [call][1..] == [];
    } else {
      assert (calls + [call])[0] == calls[0] && (calls + [call])[1..] == calls[1..] + [call];
      OrderlyOneMore(H.Next(t, calls[0]), calls[1..], call);
    }
  }

  lemma LaterBucket(a: nat, b: nat)
    requires a <= b
    ensures H.BucketOf(a) <= H.BucketOf(b)
  {}

  /** A recording of one more sample. */
  lemma OneMoreRecorded(calls: seq<Call>, call: Call)
    ensures SamplesIn(calls + [call]) == SamplesIn(calls) + [call.sample]
  {
    assert (calls + [call])[..|calls|] == calls;
  }

  /** Every run of events by a clock that does not go back is an orderly run of recordings: of the samples the events
      hand on, in their order, with the sessions shown at the time and proper victims. */
  lemma {:induction false} EventsRecordOrderly(limit: nat, events: seq<Timestamped>, pasts: seq<History>, n: nat)
    returns (calls: seq<Call>)
    requires Histories(limit, events, pasts) && Forward(events) && n <= |events|
    ensures Orderly(BLANK, calls) && SamplesIn(calls) == Samples(limit, events, n)
    ensures H.After(BLANK, calls).history == pasts[n]
    ensures H.After(BLANK, calls).clock <= if n == 0 then 0 else H.BucketOf(events[n - 1].now.wall)
    decreases n
  {
    hide H.Next, Proper, H.BucketOf, H.Recorded, EmissionAt, CoreAt, ShownDuring, Orderly;
    if n == 0 {
      calls := [];
      NothingIsOrderly();
    } else {
      var before := EventsRecordOrderly(limit, events, pasts, n - 1);
      if n > 1 {
        LaterBucket(events[n - 2].now.wall, events[n - 1].now.wall);
      }
      var shown := ShownDuring(CoreAt(limit, events, n - 1), events[n - 1].event);
      match EmissionAt(limit, events, n - 1) {
        case None =>
          StepAt(limit, events, pasts, n - 1);
          calls := before;
        case Some(e) =>
          var sample := SampleOf(e, events[n - 1].now);
          StepAt(limit, events, pasts, n - 1);
          var victim := VictimOf(pasts[n - 1], pasts[n], e, shown, events[n - 1].now);
          var call := Call(sample, shown, victim);
          calls := before + [call];
          OrderlyOneMore(BLANK, before, call);
          OneMoreRecorded(before, call);
          H.AfterOneMore(BLANK, before, call);
          NextIs(H.After(BLANK, before), call);
      }
    }
  }

  lemma StepAt(limit: nat, events: seq<Timestamped>, pasts: seq<History>, n: nat)
    requires Histories(limit, events, pasts) && n < |events|
    ensures HistoryStep(pasts[n], pasts[n + 1], EmissionAt(limit, events, n),
                        ShownDuring(CoreAt(limit, events, n), events[n].event), events[n].now)
  {
    hide HistoryStep, EmissionAt, CoreAt, ShownDuring;
  }

  lemma VictimOf(before: History, after: History, e: Emission, shown: set<Key>, now: Now) returns (victim: Option<Key>)
    requires HistoryStep(before, after, Some(e), shown, now)
    ensures Proper(before, SampleOf(e, now), shown, victim) && after == H.Recorded(before, SampleOf(e, now), victim)
  {
    hide Proper, H.Recorded;
    victim :| Proper(before, SampleOf(e, now), shown, victim) && after == H.Recorded(before, SampleOf(e, now), victim);
  }

  lemma NothingIsOrderly()
    ensures Orderly(BLANK, [])
  {}

  lemma NextIs(t: Traced, call: Call)
    ensures H.Next(t, call).history == H.Recorded(t.history, call.sample, call.victim)
    ensures H.Next(t, call).clock == H.BucketOf(call.sample.now)
  {}

  /** Whatever events a monitor applies, by a clock that does not go back: its history holds at most 4096 sessions,
      each with at most 360 strictly increasing buckets, and in the window of the last recording every bucket of every
      session is the sum of the accepted samples since the session was last evicted. */
  lemma MonitorHistoryIsFaithful(limit: nat, events: seq<Timestamped>, pasts: seq<History>) returns (calls: seq<Call>)
    requires Histories(limit, events, pasts) && Forward(events)
    ensures Orderly(BLANK, calls) && SamplesIn(calls) == Samples(limit, events, |events|)
    ensures var end, r := pasts[|events|], H.After(BLANK, calls);
      && |end.buckets| <= SESSION_OUTPUT_MAX_SESSIONS
      && (forall s :: s in end.buckets ==> Increasing(end.buckets[s]) && 0 < |end.buckets[s]| <= 360)
      && (forall s, k :: k >= FirstBucket(r.clock) ==> StoredAt(end, s, k) == LogAt(r.log, s, k))
  {
    hide Orderly, H.After, Histories, LogAt, StoredAt, Increasing, FirstBucket;
    HistoriesLength(limit, events, pasts);
    calls := EventsRecordOrderly(limit, events, pasts, |events|);
    HistoryIsFaithful(calls);
  }

  lemma HistoriesLength(limit: nat, events: seq<Timestamped>, pasts: seq<History>)
    requires Histories(limit, events, pasts)
    ensures |pasts| == |events| + 1
  {}

  lemma ShownAre(c: Core, e: Event, session: Key)
    requires
      || (exists id :: id in c.active && c.active[id].session == session
            && (id == e.id ==> !e.RequestCompleted? && !e.RequestFailed? && !e.RequestAbandoned?))
      || (exists k :: 0 <= k < |c.recent| && c.recent[k].session == session)
    ensures session in ShownDuring(c, e)
  {
    if k :| 0 <= k < |c.recent| && c.recent[k].session == session {
      assert c.recent[k] in c.recent;
    } else {
      var id :| id in c.active && c.active[id].session == session
        && (id == e.id ==> !e.RequestCompleted? && !e.RequestFailed? && !e.RequestAbandoned?);
      var left := c.active - {e.id};
      assert id != e.id ==> id in left && left[id].session == session;
    }
  }

  /** While an event's tokens are recorded, a session shown in the active or recent rows keeps what the hourly pruning
      leaves of it. */
  lemma ShownKeepsBuckets(limit: nat, events: seq<Timestamped>, pasts: seq<History>, n: nat, shown: Key)
    requires Histories(limit, events, pasts) && n < |events|
    requires var c, e := CoreAt(limit, events, n), events[n].event;
      || (exists id :: id in c.active && c.active[id].session == shown
            && (id == e.id ==> !e.RequestCompleted? && !e.RequestFailed? && !e.RequestAbandoned?))
      || (exists k :: 0 <= k < |c.recent| && c.recent[k].session == shown)
    ensures match EmissionAt(limit, events, n)
      case None => pasts[n + 1] == pasts[n]
      case Some(e) =>
        var pruned := Pruned(pasts[n], H.BucketOf(events[n].now.wall));
        shown in pruned.buckets && shown != e.session ==>
          shown in pasts[n + 1].buckets && pasts[n + 1].buckets[shown] == pruned.buckets[shown]
  {
    hide Pruned, H.BucketOf, Proper, H.Recorded, EmissionAt, CoreAt, ShownDuring;
    StepAt(limit, events, pasts, n);
    ShownAre(CoreAt(limit, events, n), events[n].event, shown);
    match EmissionAt(limit, events, n) {
      case None =>
      case Some(e) =>
        var sample := SampleOf(e, events[n].now);
        var visible := ShownDuring(CoreAt(limit, events, n), events[n].event);
        var victim := VictimOf(pasts[n], pasts[n + 1], e, visible, events[n].now);
        if shown != e.session {
          ShownIsSpared(pasts[n], sample, visible, victim, shown);
        }
    }
  }
}
