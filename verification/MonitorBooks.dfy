/** What every run of the monitor conserves: started requests, outcomes, timers and first bytes. */
module MonitorBooks {
  import opened Text
  import opened Metrics
  import opened Monitoring

  // ---------------------------------------------------------------- counting active requests

  ghost function Having(active: map<string, Active>, p: Active -> bool): set<string> {
    set id | id in active && p(active[id])
  }

  lemma HavingPut(active: map<string, Active>, id: string, a: Active, p: Active -> bool)
    ensures |Having(active[id := a], p)| == |Having(active - {id}, p)| + One(p(a))
  {
    var rest := Having(active - {id}, p);
    assert Having(active[id := a], p) == if p(a) then rest + {id} else rest;
  }

  lemma HavingDrop(active: map<string, Active>, id: string, p: Active -> bool)
    ensures |Having(active, p)| == |Having(active - {id}, p)| + One(id in active && p(active[id]))
  {
    if id in active {
      assert active[id := active[id]] == active;
      HavingPut(active, id, active[id], p);
    } else {
      assert active - {id} == active;
    }
  }

  function One(b: bool): nat {
    if b then 1 else 0
  }

  predicate WaitsQueued(a: Active) {
    a.timers.queuedAt.Some?
  }

  predicate WaitsOpening(a: Active) {
    a.timers.openingAt.Some?
  }

  predicate HasFirstByte(a: Active) {
    a.timers.firstByteAt.Some?
  }

  predicate Any(a: Active) {
    true
  }

  // ---------------------------------------------------------------- the books

  /** What the events so far add up to: entries into the timed phases, and what restarting an active id lost. */
  datatype Tally = Tally(queued: nat, opening: nat, overwritten: nat,
                         lostQueued: nat, lostOpening: nat, lostFirstByte: nat)

  const BLANK: Tally := Tally(0, 0, 0, 0, 0, 0)

  function Tallied(t: Tally, c: Core, e: Event): Tally {
    if e.id !in c.active then t
    else
      var a := c.active[e.id];
      if e.RequestStarted? then
        t.(overwritten := t.overwritten + 1, lostQueued := t.lostQueued + One(WaitsQueued(a)),
           lostOpening := t.lostOpening + One(WaitsOpening(a)),
           lostFirstByte := t.lostFirstByte + One(HasFirstByte(a)))
      else if e.RequestPhase? then
        t.(queued := t.queued + One(e.phase == Queued && a.status != Queued),
           opening := t.opening + One(e.phase == Opening && a.status != Opening))
      else t
  }

  predicate Timed(a: Active) {
    && (a.timers.queuedAt.Some? <==> a.status == Queued)
    && (a.timers.openingAt.Some? <==> a.status == Opening)
  }

  ghost predicate Balanced(c: Core, t: Tally) {
    && Consistent(c.metrics)
    && (forall id :: id in c.active ==> Timed(c.active[id]))
    && c.metrics.started[0] + c.metrics.started[1] == |Having(c.active, Any)| + Outcomes(c.metrics) + t.overwritten
    && t.queued == c.metrics.queueWait.count + |Having(c.active, WaitsQueued)| + t.lostQueued
    && t.opening == c.metrics.opening.count + |Having(c.active, WaitsOpening)| + t.lostOpening
    && c.metrics.firstByte.count == c.metrics.streamLifetime.count + |Having(c.active, HasFirstByte)| + t.lostFirstByte
  }

  // ---------------------------------------------------------------- every event keeps the books

  /** The four counts after putting a request in place of one that may have been there. */
  lemma CountsPut(active: map<string, Active>, id: string, a: Active)
    ensures var put, one := active[id := a], id in active;
      && |Having(put, Any)| == |Having(active, Any)| + 1 - One(one)
      && |Having(put, WaitsQueued)|
         == |Having(active, WaitsQueued)| + One(WaitsQueued(a)) - One(one && WaitsQueued(active[id]))
      && |Having(put, WaitsOpening)|
         == |Having(active, WaitsOpening)| + One(WaitsOpening(a)) - One(one && WaitsOpening(active[id]))
      && |Having(put, HasFirstByte)|
         == |Having(active, HasFirstByte)| + One(HasFirstByte(a)) - One(one && HasFirstByte(active[id]))
  {
    hide Having, WaitsQueued, WaitsOpening, HasFirstByte;
    HavingPut(active, id, a, Any);
    HavingDrop(active, id, Any);
    HavingPut(active, id, a, WaitsQueued);
    HavingDrop(active, id, WaitsQueued);
    HavingPut(active, id, a, WaitsOpening);
    HavingDrop(active, id, WaitsOpening);
    HavingPut(active, id, a, HasFirstByte);
    HavingDrop(active, id, HasFirstByte);
  }

  /** One request comes in, or takes the place of an active one. */
  lemma PutBalanced(c: Core, t: Tally, id: string, a: Active, metrics: Store, t1: Tally)
    requires Balanced(c, t) && Timed(a) && Consistent(metrics)
    requires var one := id in c.active;
      && metrics.started[0] + metrics.started[1] - Outcomes(metrics) - t1.overwritten
         == c.metrics.started[0] + c.metrics.started[1] - Outcomes(c.metrics) - t.overwritten + 1 - One(one)
      && t1.queued - metrics.queueWait.count - t1.lostQueued
         == t.queued - c.metrics.queueWait.count - t.lostQueued
            + One(WaitsQueued(a)) - One(one && WaitsQueued(c.active[id]))
      && t1.opening - metrics.opening.count - t1.lostOpening
         == t.opening - c.metrics.opening.count - t.lostOpening
            + One(WaitsOpening(a)) - One(one && WaitsOpening(c.active[id]))
      && metrics.firstByte.count - metrics.streamLifetime.count - t1.lostFirstByte
         == c.metrics.firstByte.count - c.metrics.streamLifetime.count - t.lostFirstByte
            + One(HasFirstByte(a)) - One(one && HasFirstByte(c.active[id]))
    ensures Balanced(Put(c, id, a).(metrics := metrics), t1)
  {
    hide Having, WaitsQueued, WaitsOpening, HasFirstByte, Consistent, Timed;
    ConsistentSized(metrics);
    ConsistentSized(c.metrics);
    CountsPut(c.active, id, a);
  }

  lemma ConsistentSized(s: Store)
    requires Consistent(s)
    ensures Sized(s)
  {
    hide AddsUp, Sum, Bounded;
  }

  lemma StartBalanced(c: Core, t: Tally, e: Event, now: Now)
    requires Balanced(c, t) && e.RequestStarted?
    ensures Sized(c.metrics) && Balanced(Apply(c, e, now).core, Tallied(t, c, e))
  {
    hide Having, AddsUp, Sum, Bounded, Balanced;
    BalancedConsistent(c, t);
    var metrics := OnStarted(c.metrics, e.endpoint);
    assert Consistent(metrics);
    PutBalanced(c, t, e.id, Begun(e.session, e.endpoint, now), metrics, Tallied(t, c, e));
  }

  lemma BalancedConsistent(c: Core, t: Tally)
    requires Balanced(c, t)
    ensures Consistent(c.metrics) && Sized(c.metrics) && forall id :: id in c.active ==> Timed(c.active[id])
  {
    hide Having, AddsUp, Sum, Bounded;
  }

  lemma PhaseBalanced(c: Core, t: Tally, id: string, a: Active, phase: Status, now: Now, t1: Tally)
    requires Balanced(c, t) && id in c.active
    requires a.timers == c.active[id].timers && a.status == c.active[id].status
    requires t1 == t.(queued := t.queued + One(phase == Queued && a.status != Queued),
                      opening := t.opening + One(phase == Opening && a.status != Opening))
    ensures Balanced(Phase(c, id, a, phase, now), t1)
  {
    hide Having, AddsUp, Sum, Bounded, Balanced, Consistent;
    BalancedConsistent(c, t);
    PhaseConsistent(c.metrics, a.timers, a.status, phase, now);
    var changed := OnPhase(c.metrics, a.timers, a.status, phase, now);
    PutBalanced(c, t, id, a.(status := phase, timers := changed.1), changed.0, t1);
  }

  lemma ProgressBalanced(c: Core, t: Tally, id: string, bytes: nat, chunks: nat, input: Option<nat>,
                         output: Option<nat>, now: Now)
    requires Balanced(c, t) && id in c.active
    ensures Balanced(Progress(c, id, c.active[id], bytes, chunks, input, output, now), t)
  {
    hide Having, AddsUp, Sum, Bounded, Balanced, Consistent, Progressed, Observed;
    BalancedConsistent(c, t);
    var a := c.active[id];
    ProgressConsistent(c.metrics, a.timers, a.startedInstant, bytes, now);
    ProgressCounts(c.metrics, a.timers, a.startedInstant, bytes, now);
    var changed := OnProgress(c.metrics, a.timers, a.startedInstant, bytes, now);
    var a1 := ActiveReport(a.(status := Streaming, timers := changed.1), bytes, chunks, input, output, now);
    PutBalanced(c, t, id, a1, changed.0, t);
  }

  lemma ProgressCounts(s: Store, timers: Timers, startedInstant: nat, bytes: nat, now: Now)
    ensures var (s1, timers1) := OnProgress(s, timers, startedInstant, bytes, now);
      && s1.firstByte.count == s.firstByte.count + One(timers1.firstByteAt.Some?) - One(timers.firstByteAt.Some?)
      && s1.streamLifetime == s.streamLifetime && s1.started == s.started && s1.outcomes == s.outcomes
  {
    hide BucketOf;
  }

  /** One request goes, counted under its outcome. */
  lemma FinishBalanced(c: Core, t: Tally, id: string, status: Status, code: Option<nat>, input: Option<nat>,
                       output: Option<nat>, error: Option<string>, now: Now)
    requires Balanced(c, t) && OutcomeIndex(status).Some?
    ensures Sized(c.metrics) && Balanced(Finish(c, id, status, code, input, output, error, now).core, t)
  {
    hide AddsUp, Sum, Bounded, Having, Consistent, Observed, Labelled, Bumped, Ended, Pushed, Overruled;
    hide WaitsQueued, WaitsOpening, HasFirstByte, ObservedSince;
    ConsistentSized(c.metrics);
    HavingDrop(c.active, id, Any);
    HavingDrop(c.active, id, WaitsQueued);
    HavingDrop(c.active, id, WaitsOpening);
    HavingDrop(c.active, id, HasFirstByte);
    if id in c.active {
      var a := c.active[id];
      FinishedConsistent(c.metrics, a.timers, a.startedInstant, a.marks, status, code, now);
      FinishedCounts(c.metrics, a, status, code, now);
    } else {
      assert c.active - {id} == c.active;
    }
  }

  lemma FinishedCounts(s: Store, a: Active, status: Status, code: Option<nat>, now: Now)
    requires Sized(s) && OutcomeIndex(status).Some?
    ensures var s1 := OnFinished(s, a.timers, a.startedInstant, a.marks, status, code, now);
      && Sized(s1) && Outcomes(s1) == Outcomes(s) + 1 && s1.started == s.started && s1.firstByte == s.firstByte
      && s1.queueWait.count == s.queueWait.count + One(WaitsQueued(a))
      && s1.opening.count == s.opening.count + One(WaitsOpening(a))
      && s1.streamLifetime.count == s.streamLifetime.count + One(HasFirstByte(a))
  {
    hide Observed, Labelled, Bumped, Elapsed;
  }

  /** An event that touches no timer and no counted metric. */
  lemma TouchBalanced(c: Core, t: Tally, id: string, a: Active)
    requires Balanced(c, t) && id in c.active && a.timers == c.active[id].timers && a.status == c.active[id].status
    ensures Balanced(Put(c, id, a), t)
  {
    hide Having, Balanced, Consistent;
    BalancedConsistent(c, t);
    PutBalanced(c, t, id, a, c.metrics, t);
  }

  lemma SameBooks(c: Core, t: Tally, c1: Core)
    requires Balanced(c, t) && c1.active == c.active
    requires c1.metrics == c.metrics.(upstreamCodes := c1.metrics.upstreamCodes)
    ensures Balanced(c1, t)
  {
    hide Having, AddsUp, Sum, Bounded;
  }

  /** Every event keeps the books. */
  lemma StepBalanced(c: Core, t: Tally, e: Event, now: Now)
    requires Balanced(c, t)
    ensures Sized(c.metrics) && Balanced(Apply(c, e, now).core, Tallied(t, c, e))
  {
    hide Balanced, Consistent, Finish, Phase, Progress, FindRow, OnStarted, ActiveReport, RowReport;
    BalancedConsistent(c, t);
    match e {
      case RequestStarted(_, _, _) => StartBalanced(c, t, e, now);
      case RequestCompleted(id, code, input, output) =>
        FinishBalanced(c, t, id, Completed, Some(code), input, output, None, now);
      case RequestFailed(id, code, error) => FinishBalanced(c, t, id, Failed, code, None, None, Some(error), now);
      case RequestAbandoned(id, error) => FinishBalanced(c, t, id, Abandoned, None, None, None, Some(error), now);
      case _ =>
        if e.id in c.active {
          ActiveStepBalanced(c, t, e, now);
        } else {
          SameBooks(c, t, Apply(c, e, now).core);
        }
    }
  }

  lemma ActiveStepBalanced(c: Core, t: Tally, e: Event, now: Now)
    requires Balanced(c, t) && e.id in c.active && Sized(c.metrics)
    requires !e.RequestStarted? && !e.RequestCompleted? && !e.RequestFailed? && !e.RequestAbandoned?
    ensures Balanced(OnActive(c, e, now).core, Tallied(t, c, e))
  {
    hide Balanced, Consistent, Finish, Phase, Progress, OnStarted, Renamed, Progressed;
    var a := c.active[e.id];
    match e {
      case ProviderChosen(id, provider, model) =>
        var marks := a.marks.(provider := Some(provider), model := Some(model));
        PhaseBalanced(c, t, id, a.(marks := marks), ProviderSelected, now, t);
      case RequestPhase(id, phase) => PhaseBalanced(c, t, id, a, phase, now, Tallied(t, c, e));
      case StreamProgress(id, bytes, chunks, input, output) =>
        ProgressBalanced(c, t, id, bytes, chunks, input, output, now);
      case UpstreamError(_, _) => SameBooks(c, t, OnActive(c, e, now).core);
      case ClientTypeResolved(id, clientType) =>
        TouchBalanced(c, t, id, a.(marks := a.marks.(clientType := Some(clientType))));
      case AccountResolved(id, account) => TouchBalanced(c, t, id, a.(marks := a.marks.(account := Some(account))));
      case ModelResolved(id, model) =>
        TouchBalanced(c, t, id, a.(marks := a.marks.(model := Some(Renamed(a.marks.model, model)))));
      case UsageUpdated(id, input, output) => TouchBalanced(c, t, id, ActiveReport(a, 0, 0, input, output, now));
    }
  }

  // ---------------------------------------------------------------- whole runs

  datatype Books = Books(core: Core, tally: Tally)

  function Next(b: Books, at: Timestamped): (r: Books)
    requires Sized(b.core.metrics)
    ensures Sized(r.core.metrics)
  {
    Books(Apply(b.core, at.event, at.now).core, Tallied(b.tally, b.core, at.event))
  }

  function Run(b: Books, events: seq<Timestamped>): Books
    requires Sized(b.core.metrics)
    decreases |events|
  {
    if events == [] then b
    else Run(Next(b, events[0]), events[1..])
  }

  lemma {:induction false} RunBalanced(b: Books, events: seq<Timestamped>)
    requires Balanced(b.core, b.tally)
    ensures Sized(b.core.metrics) && Balanced(Run(b, events).core, Run(b, events).tally)
    decreases |events|
  {
    hide Balanced, Apply, Tallied;
    BalancedConsistent(b.core, b.tally);
    if events != [] {
      StepBalanced(b.core, b.tally, events[0].event, events[0].now);
      RunBalanced(Next(b, events[0]), events[1..]);
    }
  }

  lemma FreshBalanced(limit: nat)
    ensures Balanced(Fresh(limit), BLANK)
  {
    hide Consistent;
    EmptyConsistent();
    ConsistentSized(EMPTY_STORE);
  }

  /** No event starts a request that is already active and of this kind. */
  predicate NoRestart(b: Books, events: seq<Timestamped>, kind: Active -> bool)
    requires Sized(b.core.metrics)
    decreases |events|
  {
    events == [] || (!Restarts(b.core, events[0].event, kind) && NoRestart(Next(b, events[0]), events[1..], kind))
  }

  predicate Restarts(c: Core, e: Event, kind: Active -> bool) {
    e.RequestStarted? && e.id in c.active && kind(c.active[e.id])
  }

  /** What is lost is lost by restarts: of any request, of one waiting, of one with a first byte. */
  lemma {:induction false} LostOnlyByRestart(b: Books, events: seq<Timestamped>)
    requires Sized(b.core.metrics)
    ensures var t, t1 := b.tally, Run(b, events).tally;
      && t1.overwritten >= t.overwritten && t1.lostQueued >= t.lostQueued
      && t1.lostOpening >= t.lostOpening && t1.lostFirstByte >= t.lostFirstByte
      && (t1.overwritten == t.overwritten <==> NoRestart(b, events, Any))
      && (t1.lostQueued == t.lostQueued <==> NoRestart(b, events, WaitsQueued))
      && (t1.lostOpening == t.lostOpening <==> NoRestart(b, events, WaitsOpening))
      && (t1.lostFirstByte == t.lostFirstByte <==> NoRestart(b, events, HasFirstByte))
    decreases |events|
  {
    hide Apply, WaitsQueued, WaitsOpening, HasFirstByte;
    if events != [] {
      LostOnlyByRestart(Next(b, events[0]), events[1..]);
    }
  }

  /** Over every run from an empty monitor: started requests are the active ones plus the counted outcomes exactly
      when no active id was started again; every outcome has its duration, its code and one label of each kind. */
  lemma OutcomesConserved(limit: nat, events: seq<Timestamped>)
    ensures var start := Books(Fresh(limit), BLANK); var c := Run(start, events).core;
      && Consistent(c.metrics) && Sized(c.metrics)
      && c.metrics.started[0] + c.metrics.started[1] >= |c.active| + Outcomes(c.metrics)
      && (c.metrics.started[0] + c.metrics.started[1] == |c.active| + Outcomes(c.metrics)
          <==> NoRestart(start, events, Any))
  {
    hide Run, Consistent, NoRestart;
    var start := Books(Fresh(limit), BLANK);
    FreshBalanced(limit);
    RunBalanced(start, events);
    LostOnlyByRestart(start, events);
    var c := Run(start, events).core;
    ConsistentSized(c.metrics);
    assert Having(c.active, Any) == c.active.Keys;
  }

  /** Over every run from an empty monitor: a request's queue timer runs exactly while it is Queued, likewise for
      opening. Entries into each phase are the observed waits plus the timers still running exactly when no event
      restarted a request while that timer of it ran; first bytes are the observed stream lifetimes plus the active
      requests that have one exactly when no event restarted a request that had one. Otherwise they are more. */
  lemma TimersConserved(limit: nat, events: seq<Timestamped>)
    ensures var start := Books(Fresh(limit), BLANK);
      var end := Run(start, events); var c, t := end.core, end.tally;
      var waits, opens := c.metrics.queueWait.count, c.metrics.opening.count;
      var streams, firsts := c.metrics.streamLifetime.count, c.metrics.firstByte.count;
      && (forall id :: id in c.active ==> Timed(c.active[id]))
      && t.queued >= waits + |Having(c.active, WaitsQueued)|
      && t.opening >= opens + |Having(c.active, WaitsOpening)|
      && firsts >= streams + |Having(c.active, HasFirstByte)|
      && (t.queued == waits + |Having(c.active, WaitsQueued)| <==> NoRestart(start, events, WaitsQueued))
      && (t.opening == opens + |Having(c.active, WaitsOpening)| <==> NoRestart(start, events, WaitsOpening))
      && (firsts == streams + |Having(c.active, HasFirstByte)| <==> NoRestart(start, events, HasFirstByte))
  {
    hide Run, Consistent, NoRestart, Having, Timed;
    var start := Books(Fresh(limit), BLANK);
    FreshBalanced(limit);
    RunBalanced(start, events);
    LostOnlyByRestart(start, events);
  }
}
