/** What the histograms hold: the times the events themselves tell, counted below each bound. */
module PhaseTimes {
  import opened Text
  import opened Metrics
  import opened Monitoring
  import opened MonitorCounts
  import opened RequestReading

  // ---------------------------------------------------------------- what a histogram says of its samples

  function SumAll(ds: seq<nat>): nat {
    if ds == [] then 0 else SumAll(ds[..|ds| - 1]) + ds[|ds| - 1]
  }

  function AtMost(ds: seq<nat>, bound: nat): nat {
    if ds == [] then 0 else AtMost(ds[..|ds| - 1], bound) + if ds[|ds| - 1] <= bound then 1 else 0
  }

  /** The exported bounds, in milliseconds. */
  const MILLIS: seq<nat> := [10, 100, 500, 1_000, 2_000, 5_000, 10_000, 30_000, 60_000, 120_000, 300_000]

  /** Sum and count are those of the samples, and adding up the buckets to a bound gives the samples up to it. */
  ghost predicate Says(h: Histogram, ds: seq<nat>) {
    && |h.buckets| == 12 && h.count == |ds| && h.sum == SumAll(ds)
    && (forall k :: 0 <= k < 11 ==> UpTo(h.buckets, k) == AtMost(ds, MILLIS[k] * 1_000_000))
    && Total(h.buckets) == |ds|
  }

  /** What is exported for a bound: its bucket and all below. */
  function UpTo(counts: seq<nat>, k: nat): nat
    requires k < |counts|
  {
    Total(counts[..k + 1])
  }

  lemma Bounds(k: nat)
    requires k < 11
    ensures BOUNDS[k] == MILLIS[k] * 1_000_000
    ensures forall j :: 0 <= j < k ==> BOUNDS[j] < BOUNDS[k]
  {}

  lemma {:induction false} NothingTotals(counts: seq<nat>)
    requires forall i :: 0 <= i < |counts| ==> counts[i] == 0
    ensures Total(counts) == 0
  {
    if counts != [] {
      NothingTotals(counts[1..]);
    }
  }

  lemma NothingSaid()
    ensures Says(NO_SAMPLES, [])
  {
    NothingTotals(NO_SAMPLES.buckets);
    forall k | 0 <= k < 11 ensures UpTo(NO_SAMPLES.buckets, k) == 0 {
      NothingTotals(NO_SAMPLES.buckets[..k + 1]);
    }
  }

  lemma OneMoreSaid(h: Histogram, ds: seq<nat>, d: nat)
    requires Says(h, ds)
    ensures Says(Observed(h, d), ds + [d])
  {
    hide Total, BucketOf;
    assert (ds + [d])[..|ds|] == ds;
    var b := BucketOf(d, 0);
    var more := h.buckets[b := h.buckets[b] + 1];
    TotalUpdate(h.buckets, b, h.buckets[b] + 1);
    forall k | 0 <= k < 11 ensures UpTo(more, k) == AtMost(ds + [d], MILLIS[k] * 1_000_000) {
      assert UpTo(h.buckets, k) == AtMost(ds, MILLIS[k] * 1_000_000);
      Bounds(k);
      if b <= k {
        Bounds(b);
        assert more[..k + 1] == h.buckets[..k + 1][b := h.buckets[b] + 1];
        TotalUpdate(h.buckets[..k + 1], b, h.buckets[b] + 1);
      } else {
        assert more[..k + 1] == h.buckets[..k + 1];
      }
    }
  }

  // ---------------------------------------------------------------- times, from the events

  /** How long the request had been in a phase when this event ends the phase. */
  function Stay(phase: Status, limit: nat, before: seq<Timestamped>, at: Timestamped): Option<nat> {
    var c, id := After(Fresh(limit), before), at.event.id;
    match LastStart(before, id)
    case None => None
    case Some(p) =>
      var es := before[p + 1..];
      if id in c.active && StatusOf(es, id) == phase
         && (EndsActive(c, at.event) || SaysStatus(at.event).GetOr(phase) != phase)
      then Some(Elapsed(at.now, EnteredAt(es, id, before[p].now.mono)))
      else None
  }

  /** How old the request was when this event brought its first bytes. */
  function ToFirstByte(limit: nat, before: seq<Timestamped>, at: Timestamped): Option<nat> {
    var c, id := After(Fresh(limit), before), at.event.id;
    match LastStart(before, id)
    case None => None
    case Some(p) =>
      if id in c.active && GivesBytes(at.event) > 0 && FirstByteAt(before[p + 1..], id).None?
      then Some(Elapsed(at.now, before[p].now.mono))
      else None
  }

  /** How old the request was when this event ended it. */
  function Life(limit: nat, before: seq<Timestamped>, at: Timestamped): Option<nat> {
    match LastStart(before, at.event.id)
    case None => None
    case Some(p) =>
      if EndsActive(After(Fresh(limit), before), at.event) then Some(Elapsed(at.now, before[p].now.mono)) else None
  }

  /** How long after its first bytes this event ended it. */
  function StreamLife(limit: nat, before: seq<Timestamped>, at: Timestamped): Option<nat> {
    match LastStart(before, at.event.id)
    case None => None
    case Some(p) =>
      var first := FirstByteAt(before[p + 1..], at.event.id);
      if EndsActive(After(Fresh(limit), before), at.event) && first.Some? then Some(Elapsed(at.now, first.value))
      else None
  }

  type Timing = (nat, seq<Timestamped>, Timestamped) -> Option<nat>

  /** The times of a kind a run tells, in order. */
  function Times(limit: nat, events: seq<Timestamped>, timing: Timing): seq<nat> {
    if events == [] then []
    else
      var n := |events| - 1;
      Times(limit, events[..n], timing) + Maybe(timing(limit, events[..n], events[n]))
  }

  function Maybe(time: Option<nat>): seq<nat> {
    match time
    case None => []
    case Some(t) => [t]
  }

  function Queuing(limit: nat, before: seq<Timestamped>, at: Timestamped): Option<nat> {
    Stay(Queued, limit, before, at)
  }

  function OpeningUp(limit: nat, before: seq<Timestamped>, at: Timestamped): Option<nat> {
    Stay(Opening, limit, before, at)
  }

  // ---------------------------------------------------------------- one event

  function Noting(h: Histogram, time: Option<nat>): Histogram {
    match time
    case None => h
    case Some(t) => Observed(h, t)
  }

  /** What one event adds to the five histograms. */
  ghost predicate Noted(s: Store, s1: Store, limit: nat, before: seq<Timestamped>, at: Timestamped) {
    && s1.queueWait == Noting(s.queueWait, Queuing(limit, before, at))
    && s1.opening == Noting(s.opening, OpeningUp(limit, before, at))
    && s1.firstByte == Noting(s.firstByte, ToFirstByte(limit, before, at))
    && s1.duration == Noting(s.duration, Life(limit, before, at))
    && s1.streamLifetime == Noting(s.streamLifetime, StreamLife(limit, before, at))
  }

  /** What the timers of a request tell, as its events do. */
  lemma TimersRead(limit: nat, before: seq<Timestamped>, id: string)
    requires var c := After(Fresh(limit), before); id in c.active && Reads(c, before, id)
    ensures var p, a := LastStart(before, id), After(Fresh(limit), before).active[id];
      && p.Some?
      && var es, start := before[p.value + 1..], before[p.value].now.mono;
      && a.status == StatusOf(es, id) && a.startedInstant == start
      && a.timers.queuedAt == (if a.status == Queued then Some(EnteredAt(es, id, start)) else None)
      && a.timers.openingAt == (if a.status == Opening then Some(EnteredAt(es, id, start)) else None)
      && a.timers.firstByteAt == FirstByteAt(es, id)
  {
    hide After, StatusOf, EnteredAt, FirstByteAt, GenerationOf, Last, SumOf, ModelShown, LastStart;
  }

  /** The histograms when a request ends. */
  lemma EndHistograms(c: Core, at: Timestamped)
    requires Sized(c.metrics) && EndsActive(c, at.event)
    ensures var a, s, s1 := c.active[at.event.id], c.metrics, Apply(c, at.event, at.now).core.metrics;
      && s1.queueWait == ObservedSince(s.queueWait, a.timers.queuedAt, at.now)
      && s1.opening == ObservedSince(s.opening, a.timers.openingAt, at.now)
      && s1.streamLifetime == ObservedSince(s.streamLifetime, a.timers.firstByteAt, at.now)
      && s1.duration == Observed(s.duration, Elapsed(at.now, a.startedInstant)) && s1.firstByte == s.firstByte
  {
    hide BadlyOnRecord, Overruled, Observed, ObservedSince, Elapsed, Labelled, Bumped, Code, Begun, Ended, Pushed,
         FinalEmission;
    RecordedBadly(c, at.event.id, EndStatus(at.event));
  }

  lemma EndNoted(c: Core, limit: nat, before: seq<Timestamped>, at: Timestamped)
    requires c == After(Fresh(limit), before) && Reads(c, before, at.event.id) && Sized(c.metrics)
    requires EndsActive(c, at.event)
    ensures Noted(c.metrics, Apply(c, at.event, at.now).core.metrics, limit, before, at)
  {
    hide After, Apply, StatusOf, EnteredAt, FirstByteAt, LastStart, Reads, EndsActive, Observed, Elapsed, Fresh;
    EndWasActive(c, at.event);
    TimersRead(limit, before, at.event.id);
    EndHistograms(c, at);
  }

  lemma PhaseHistograms(s: Store, timers: Timers, before: Status, phase: Status, now: Now)
    ensures var s1 := OnPhase(s, timers, before, phase, now).0;
      && s1.queueWait == ObservedSince(s.queueWait, if phase != before then timers.queuedAt else None, now)
      && s1.opening == ObservedSince(s.opening, if phase != before then timers.openingAt else None, now)
      && s1.firstByte == s.firstByte && s1.duration == s.duration && s1.streamLifetime == s.streamLifetime
  {
    hide Observed, Elapsed;
  }

  /** The histograms while a request stays active. */
  lemma ActiveHistograms(c: Core, at: Timestamped)
    requires Sized(c.metrics) && at.event.id in c.active && !EndsActive(c, at.event)
    ensures var a, e, s, s1 := c.active[at.event.id], at.event, c.metrics, Apply(c, at.event, at.now).core.metrics;
      var leaves := e.StreamProgress? || (SaysStatus(e).Some? && SaysStatus(e).value != a.status);
      && s1.queueWait == ObservedSince(s.queueWait, if leaves then a.timers.queuedAt else None, at.now)
      && s1.opening == ObservedSince(s.opening, if leaves then a.timers.openingAt else None, at.now)
      && s1.firstByte == (if GivesBytes(e) > 0 && a.timers.firstByteAt.None?
                          then Observed(s.firstByte, Elapsed(at.now, a.startedInstant)) else s.firstByte)
      && s1.duration == s.duration && s1.streamLifetime == s.streamLifetime
  {
    hide BadlyOnRecord, Overruled, Observed, ObservedSince, OnPhase, Elapsed, Bumped, Code, Begun, ActiveReport,
         Renamed, Finish;
    var a := c.active[at.event.id];
    NotSince(c.metrics, at.now);
    match at.event {
      case RequestCompleted(id, code, input, output) => StillThere(c, at);
      case ProviderChosen(_, _, _) => PhaseHistograms(c.metrics, a.timers, a.status, ProviderSelected, at.now);
      case RequestPhase(_, phase) => PhaseHistograms(c.metrics, a.timers, a.status, phase, at.now);
      case _ =>
    }
  }

  lemma NotSince(s: Store, now: Now)
    ensures ObservedSince(s.queueWait, None, now) == s.queueWait && ObservedSince(s.opening, None, now) == s.opening
  {}

  /** A completion that is overruled changes nothing. */
  lemma StillThere(c: Core, at: Timestamped)
    requires Sized(c.metrics) && at.event.id in c.active && at.event.RequestCompleted? && !EndsActive(c, at.event)
    ensures Apply(c, at.event, at.now).core == c
  {
    hide BadlyOnRecord, OnFinished, Ended, Pushed, FinalEmission, Begun;
    RecordedBadly(c, at.event.id, Completed);
  }

  lemma ActiveNoted(c: Core, limit: nat, before: seq<Timestamped>, at: Timestamped)
    requires c == After(Fresh(limit), before) && Reads(c, before, at.event.id) && Sized(c.metrics)
    requires at.event.id in c.active && !EndsActive(c, at.event)
    ensures Noted(c.metrics, Apply(c, at.event, at.now).core.metrics, limit, before, at)
  {
    hide After, Apply, StatusOf, EnteredAt, FirstByteAt, LastStart, Reads, EndsActive, Observed, Elapsed, Fresh;
    TimersRead(limit, before, at.event.id);
    ActiveHistograms(c, at);
  }

  lemma InactiveNoted(c: Core, limit: nat, before: seq<Timestamped>, at: Timestamped)
    requires c == After(Fresh(limit), before) && Sized(c.metrics) && at.event.id !in c.active
    ensures Noted(c.metrics, Apply(c, at.event, at.now).core.metrics, limit, before, at)
  {
    hide After, StatusOf, EnteredAt, FirstByteAt, LastStart, BadlyOnRecord, Overruled, Observed, Elapsed, FindRow,
         RowReport, LateEmission, OnFinished, Ended, Pushed, FinalEmission, Begun, Fresh;
  }

  lemma StepNoted(limit: nat, before: seq<Timestamped>, at: Timestamped)
    ensures var c := After(Fresh(limit), before);
      Noted(c.metrics, Apply(c, at.event, at.now).core.metrics, limit, before, at)
  {
    hide After, Noted, Apply, EndsActive, Reads, Fresh;
    FreshLimit(limit);
    var c := After(Fresh(limit), before);
    ActiveIsRead(limit, before, at.event.id);
    if EndsActive(c, at.event) {
      EndNoted(c, limit, before, at);
    } else if at.event.id in c.active {
      ActiveNoted(c, limit, before, at);
    } else {
      InactiveNoted(c, limit, before, at);
    }
  }

  // ---------------------------------------------------------------- every run

  lemma NotingSays(h: Histogram, ds: seq<nat>, time: Option<nat>)
    requires Says(h, ds)
    ensures Says(Noting(h, time), ds + Maybe(time))
  {
    hide Says, Observed;
    match time {
      case None => assert ds + [] == ds;
      case Some(t) => OneMoreSaid(h, ds, t);
    }
  }

  /** After any run, the histograms say exactly the times its events tell: in the queue, opening, to the first bytes,
      from the first bytes to the end, and of the whole request. */
  lemma {:induction false} HistogramsSayTheTimes(limit: nat, events: seq<Timestamped>)
    ensures var s := After(Fresh(limit), events).metrics;
      && Says(s.queueWait, Times(limit, events, Queuing))
      && Says(s.opening, Times(limit, events, OpeningUp))
      && Says(s.firstByte, Times(limit, events, ToFirstByte))
      && Says(s.duration, Times(limit, events, Life))
      && Says(s.streamLifetime, Times(limit, events, StreamLife))
  {
    hide After, Says, Noting, Apply, Queuing, OpeningUp, ToFirstByte, Life, StreamLife, Fresh;
    FreshLimit(limit);
    if events == [] {
      NothingSaid();
      FreshSays(limit);
    } else {
      var n := |events| - 1;
      var before, at := events[..n], events[n];
      HistogramsSayTheTimes(limit, before);
      StepNoted(limit, before, at);
      AfterOneMore(Fresh(limit), events, n);
      assert events[..n + 1] == events;
      var s := After(Fresh(limit), before).metrics;
      NotingSays(s.queueWait, Times(limit, before, Queuing), Queuing(limit, before, at));
      NotingSays(s.opening, Times(limit, before, OpeningUp), OpeningUp(limit, before, at));
      NotingSays(s.firstByte, Times(limit, before, ToFirstByte), ToFirstByte(limit, before, at));
      NotingSays(s.duration, Times(limit, before, Life), Life(limit, before, at));
      NotingSays(s.streamLifetime, Times(limit, before, StreamLife), StreamLife(limit, before, at));
    }
  }

  lemma FreshSays(limit: nat)
    ensures var s := After(Fresh(limit), []).metrics;
      s.queueWait == s.opening == s.firstByte == s.duration == s.streamLifetime == NO_SAMPLES
  {}
}
