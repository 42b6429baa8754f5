/** The monitor in place: one store updated by each event, and its metrics. */
module MonitorStore {
  import opened Text
  import opened Metrics
  import opened Monitoring
  import opened OutputHistory
  import opened HistoryRuns

  class MetricsStore {
    var started: seq<nat>
    var outcomes: seq<nat>
    var retries: nat
    var terminalCodes: Counts<nat>
    var upstreamCodes: Counts<nat>
    var providers: Counts<string>
    var models: Counts<string>
    var clients: Counts<string>
    var accounts: Counts<string>
    var queueWait: Histogram
    var opening: Histogram
    var firstByte: Histogram
    var duration: Histogram
    var streamLifetime: Histogram

    ghost function View(): Store
      reads this
    {
      Store(started, outcomes, retries, terminalCodes, upstreamCodes, providers, models, clients, accounts,
            queueWait, opening, firstByte, duration, streamLifetime)
    }

    constructor ()
      ensures View() == EMPTY_STORE
    {
      started := [0, 0];
      outcomes := [0, 0, 0];
      retries := 0;
      terminalCodes := map[];
      upstreamCodes := map[];
      providers := map[];
      models := map[];
      clients := map[];
      accounts := map[];
      queueWait := NO_SAMPLES;
      opening := NO_SAMPLES;
      firstByte := NO_SAMPLES;
      duration := NO_SAMPLES;
      streamLifetime := NO_SAMPLES;
    }

    method RequestStarted(endpoint: Endpoint)
      requires Sized(View())
      modifies this
      ensures View() == OnStarted(old(View()), endpoint)
    {
      var index := EndpointIndex(endpoint);
      started := started[index := started[index] + 1];
    }

    /** Stop whatever phase timer runs. */
    method StopTimers(timers: Timers, now: Now)
      modifies this`queueWait, this`opening
      ensures queueWait == ObservedSince(old(queueWait), timers.queuedAt, now)
      ensures opening == ObservedSince(old(opening), timers.openingAt, now)
    {
      hide Observed, Elapsed;
      if timers.queuedAt.Some? {
        queueWait := Observed(queueWait, Elapsed(now, timers.queuedAt.value));
      }
      if timers.openingAt.Some? {
        opening := Observed(opening, Elapsed(now, timers.openingAt.value));
      }
    }

    method EndStream(firstByteAt: Option<nat>, now: Now)
      modifies this`streamLifetime
      ensures streamLifetime == ObservedSince(old(streamLifetime), firstByteAt, now)
    {
      hide Observed, Elapsed;
      if firstByteAt.Some? {
        streamLifetime := Observed(streamLifetime, Elapsed(now, firstByteAt.value));
      }
    }

    method Mark(marks: Marks)
      modifies this`providers, this`models, this`clients, this`accounts
      ensures View() == Marked(old(View()), marks)
    {
      hide Labelled;
      providers := Labelled(providers, marks.provider);
      models := Labelled(models, marks.model);
      clients := Labelled(clients, marks.clientType);
      accounts := Labelled(accounts, marks.account);
    }

    method PhaseChanged(timers: Timers, status: Status, phase: Status, now: Now) returns (changed: Timers)
      modifies this
      ensures (View(), changed) == OnPhase(old(View()), timers, status, phase, now)
    {
      hide ObservedSince;
      if phase == Retrying {
        retries := retries + 1;
      }
      if status == phase {
        return timers;
      }
      StopTimers(timers, now);
      changed := timers.(queuedAt := None, openingAt := None);
      match phase {
        case Queued => changed := changed.(queuedAt := Some(now.mono));
        case Opening => changed := changed.(openingAt := Some(now.mono));
        case _ =>
      }
    }

    method StreamProgressed(timers: Timers, startedInstant: nat, bytes: nat, now: Now) returns (changed: Timers)
      modifies this
      ensures (View(), changed) == OnProgress(old(View()), timers, startedInstant, bytes, now)
    {
      changed := timers;
      if bytes > 0 && timers.firstByteAt.None? {
        firstByte := Observed(firstByte, Elapsed(now, startedInstant));
        changed := changed.(firstByteAt := Some(now.mono));
      }
      StopTimers(timers, now);
      changed := changed.(queuedAt := None, openingAt := None);
    }

    method UpstreamFailed(code: nat)
      modifies this`upstreamCodes
      ensures upstreamCodes == Bumped(old(upstreamCodes), Code(code))
    {
      upstreamCodes := Bumped(upstreamCodes, Code(code));
    }

    method CountOutcome(index: nat, code: Option<nat>)
      requires index < |outcomes|
      modifies this`outcomes, this`terminalCodes
      ensures View() == old(View()).(outcomes := old(outcomes)[index := old(outcomes)[index] + 1],
                                     terminalCodes := Bumped(old(terminalCodes), Code(code.GetOr(0))))
    {
      hide Bumped, Code;
      outcomes := outcomes[index := outcomes[index] + 1];
      terminalCodes := Bumped(terminalCodes, Code(code.GetOr(0)));
    }

    method StopClocks(timers: Timers, startedInstant: nat, now: Now)
      modifies this`duration, this`queueWait, this`opening, this`streamLifetime
      ensures View() == Stopped(old(View()), timers, startedInstant, now)
    {
      hide Observed, ObservedSince, Elapsed;
      duration := Observed(duration, Elapsed(now, startedInstant));
      StopTimers(timers, now);
      EndStream(timers.firstByteAt, now);
    }

    method RequestFinished(timers: Timers, startedInstant: nat, marks: Marks, status: Status, code: Option<nat>,
                           now: Now)
      requires Sized(View())
      modifies this
      ensures View() == OnFinished(old(View()), timers, startedInstant, marks, status, code, now)
    {
      hide Stopped, Marked, Bumped, Code;
      var index := OutcomeIndex(status);
      if index.None? {
        return;
      }
      CountOutcome(index.value, code);
      StopClocks(timers, startedInstant, now);
      Mark(marks);
    }
  }

  class MonitorStore {
    const metrics: MetricsStore
    const recentLimit: nat
    var active: map<string, Active>
    var recent: seq<Row>
    var buckets: map<Key, seq<Bucket>>
    var lastPruned: Option<nat>

    ghost function View(): Core
      reads this, metrics
    {
      Core(active, recent, recentLimit, metrics.View())
    }

    ghost function Past(): History
      reads this
    {
      History(buckets, lastPruned)
    }

    constructor (recentLimit: nat)
      ensures View() == Fresh(recentLimit) && Past() == NOTHING_RECORDED && fresh(metrics)
    {
      this.recentLimit := recentLimit;
      metrics := new MetricsStore();
      active := map[];
      recent := [];
      buckets := map[];
      lastPruned := None;
    }

    // -------------------------------------------------------------- session history

    /** Drop the hidden session updated longest ago, if there is a hidden one. */
    method EvictUnlistedSessionOutput(protected_: Key) returns (victim: Option<Key>)
      modifies this`buckets
      ensures Evictable(old(Past()), Shown(active, recent) + {protected_}, victim)
      ensures buckets == if victim.Some? then old(buckets) - {victim.value} else old(buckets)
    {
      var visible := Shown(active, recent) + {protected_};
      victim := None;
      var rest := buckets.Keys;
      while rest != {}
        invariant rest <= buckets.Keys
        invariant victim.None? ==> forall s :: s in buckets && s !in rest ==> s in visible
        invariant victim.Some? ==> victim.value in buckets && victim.value !in visible
        invariant victim.Some? ==> forall s :: s in buckets && s !in rest && s !in visible ==>
          LastAt(buckets[victim.value]) <= LastAt(buckets[s])
        decreases |rest|
      {
        var s :| s in rest;
        rest := rest - {s};
        if s !in visible {
          if victim.None? || LastAt(buckets[s]) < LastAt(buckets[victim.value]) {
            victim := Some(s);
          }
        }
      }
      if victim.Some? {
        buckets := buckets - {victim.value};
      }
    }

    method PruneWhenDue(nowBucket: nat)
      modifies this`buckets, this`lastPruned
      ensures Past() == Pruned(old(Past()), nowBucket)
    {
      if lastPruned.None? || (if nowBucket >= lastPruned.value then nowBucket - lastPruned.value else 0)
         >= SESSION_OUTPUT_PRUNE_INTERVAL_SECS / SESSION_TOKEN_BUCKET_SECS {
        buckets := Prune(buckets, FirstBucket(nowBucket));
        lastPruned := Some(nowBucket);
      }
    }

    method RecordSessionOutput(emission: Emission, now: Now)
      modifies this`buckets, this`lastPruned
      ensures HistoryStep(old(Past()), Past(), Some(emission), Shown(active, recent), now)
    {
      hide Pruned, Evictable, AddTo, DropBefore, OutputHistory.BucketOf, FirstBucket, HistoryStep, Shown;
      var nowBucket := OutputHistory.BucketOf(now.wall);
      var firstBucket := FirstBucket(nowBucket);
      PruneWhenDue(nowBucket);
      ghost var before, pruned := old(Past()), Past();
      var stamped := OutputHistory.BucketOf(emission.stamp);
      var bucket := if stamped < nowBucket then stamped else nowBucket;
      var victim: Option<Key> := None;
      if emission.tokens == 0 || bucket < firstBucket {
        StepBy(before, Past(), emission, Shown(active, recent), now, victim);
        return;
      }
      if emission.session !in buckets && |buckets| >= SESSION_OUTPUT_MAX_SESSIONS {
        victim := EvictUnlistedSessionOutput(emission.session);
        if victim.None? {
          StepBy(before, Past(), emission, Shown(active, recent), now, victim);
          return;
        }
      }
      var kept := DropBefore(if emission.session in buckets then buckets[emission.session] else [], firstBucket);
      buckets := buckets[emission.session := AddTo(kept, bucket, emission.tokens)];
      StepBy(before, Past(), emission, Shown(active, recent), now, victim);
    }

    // -------------------------------------------------------------- the end of a request

    /** A row goes to the front; rows over the limit go from the back. */
    method PushRecent(row: Row)
      modifies this`recent
      ensures recent == Pushed(old(recent), row, recentLimit)
    {
      recent := [row] + recent;
      ghost var all := recent;
      while |recent| > recentLimit
        invariant |recent| <= |all| && recent == all[..|recent|]
        invariant |recent| >= recentLimit || recent == all
      {
        recent := recent[..|recent| - 1];
      }
    }

    method CompletedRow(id: string, request: Active, status: Status, code: Option<nat>, input: Option<nat>,
                        output: Option<nat>, error: Option<string>, now: Now) returns (row: Row)
      ensures row == Ended(id, request, status, code, input, output, error, now)
    {
      var generation := request.generation;
      if generation.started.Some? {
        generation := generation.(finished := Some(now.wall));
      }
      row := Row(id, request.session, request.endpoint, request.marks, generation, status, code, now.wall,
                 request.bytes, request.chunks, FirstOf(input, request.input), FirstOf(output, request.output), error);
    }

    method Finish(id: string, status: Status, code: Option<nat>, input: Option<nat>, output: Option<nat>,
                  error: Option<string>, now: Now)
      requires Sized(metrics.View())
      modifies this, metrics
      ensures var r := Monitoring.Finish(old(View()), id, status, code, input, output, error, now);
        && View() == r.core
        && HistoryStep(old(Past()), Past(), r.emission, Shown(old(active) - {id}, old(recent)), now)
    {
      hide OnFinished, HistoryStep, FinalEmission, Pushed, Shown, Ended, Begun, Sized, EndedBadly;
      if status == Completed && EndedBadly(recent, id) {
        NoEmission(Past(), Shown(active - {id}, recent), now);
        return;
      }
      var tracked := id in active;
      var request := if tracked then active[id] else Begun(None, Messages, now);
      active := active - {id};
      if tracked {
        metrics.RequestFinished(request.timers, request.startedInstant, request.marks, status, code, now);
      }
      var completed := CompletedRow(id, request, status, code, input, output, error, now);
      Settle(completed, now);
    }

    /** Hand on the row's tokens, then show the row. */
    method Settle(row: Row, now: Now)
      modifies this`recent, this`buckets, this`lastPruned
      ensures recent == Pushed(old(recent), row, recentLimit)
      ensures HistoryStep(old(Past()), Past(), FinalEmission(row), Shown(active, old(recent)), now)
    {
      hide Pushed, Proper, Recorded, Shown;
      if row.output.Some? && row.output.value > 0 {
        RecordSessionOutput(Emission(row.session, row.generation.finished.GetOr(row.finishedAt), row.output.value),
                            now);
      }
      PushRecent(row);
    }

    // -------------------------------------------------------------- reports

    method NotePhase(id: string, a: Active, phase: Status, now: Now)
      requires id in active
      modifies this`active, metrics
      ensures View() == Phase(old(View()), id, a, phase, now)
    {
      var timers := metrics.PhaseChanged(a.timers, a.status, phase, now);
      active := active[id := a.(status := phase, timers := timers)];
    }

    method NoteProgress(id: string, bytes: nat, chunks: nat, input: Option<nat>, output: Option<nat>, now: Now)
      requires id in active
      modifies this`active, metrics
      ensures View() == Progress(old(View()), id, old(active)[id], bytes, chunks, input, output, now)
    {
      var a := active[id];
      var timers := metrics.StreamProgressed(a.timers, a.startedInstant, bytes, now);
      active := active[id := ActiveReport(a.(status := Streaming, timers := timers),
                                          bytes, chunks, input, output, now)];
    }

    /** A report for a request that is no longer active updates its row in place. */
    method NoteLate(id: string, bytes: nat, chunks: nat, input: Option<nat>, output: Option<nat>, now: Now)
      modifies this
      ensures var r := LateReport(old(View()), id, bytes, chunks, input, output, now);
        && View() == r.core
        && HistoryStep(old(Past()), Past(), r.emission, Shown(old(active), old(recent)), now)
    {
      var found := FindRow(recent, id);
      if found.None? {
        return;
      }
      var row := recent[found.value];
      var previous := row.output.GetOr(0);
      var reported := RowReport(row, bytes, chunks, input, output, now);
      recent := recent[found.value := reported];
      SameShown(active, old(recent), found.value, reported);
      var total := reported.output.GetOr(0);
      if total > previous {
        RecordSessionOutput(Emission(reported.session, reported.generation.finished.GetOr(reported.finishedAt),
                                     total - previous), now);
      }
    }

    // -------------------------------------------------------------- one event

    method Apply(e: Event, now: Now)
      requires Sized(metrics.View())
      modifies this, metrics
      ensures var r := Monitoring.Apply(old(View()), e, now);
        View() == r.core && HistoryStep(old(Past()), Past(), r.emission, ShownDuring(old(View()), e), now)
      ensures Sized(metrics.View())
    {
      hide Monitoring.Finish, LateReport, Phase, Progress, ActiveReport, RowReport, FindRow, Proper, Recorded;
      hide Bumped, Renamed, Shown, OnStarted, LateEmission;
      match e {
        case RequestCompleted(id, code, input, output) => Finish(id, Completed, Some(code), input, output, None, now);
        case RequestFailed(id, code, error) => Finish(id, Failed, code, None, None, Some(error), now);
        case RequestAbandoned(id, error) =>
          if id in active {
            Finish(id, Abandoned, None, None, None, Some(error), now);
          }
        case RequestStarted(id, session, endpoint) =>
          metrics.RequestStarted(endpoint);
          active := active[id := Begun(session, endpoint, now)];
        case _ =>
          if e.id in active {
            ApplyToActive(e, now);
          } else {
            ApplyToRow(e, now);
          }
      }
    }

    method ApplyToActive(e: Event, now: Now)
      requires Sized(metrics.View()) && e.id in active
      requires !e.RequestStarted? && !e.RequestCompleted? && !e.RequestFailed? && !e.RequestAbandoned?
      modifies this`active, metrics
      ensures Applied(View(), None) == OnActive(old(View()), e, now)
    {
      hide Monitoring.Finish, Phase, Progress, ActiveReport, Bumped, Renamed;
      var a := active[e.id];
      match e {
        case ProviderChosen(id, provider, model) =>
          NotePhase(id, a.(marks := a.marks.(provider := Some(provider), model := Some(model))), ProviderSelected, now);
        case ClientTypeResolved(id, clientType) =>
          active := active[id := a.(marks := a.marks.(clientType := Some(clientType)))];
        case AccountResolved(id, account) => active := active[id := a.(marks := a.marks.(account := Some(account)))];
        case UpstreamError(_, code) => metrics.UpstreamFailed(code);
        case ModelResolved(id, model) =>
          active := active[id := a.(marks := a.marks.(model := Some(Renamed(a.marks.model, model))))];
        case RequestPhase(id, phase) => NotePhase(id, a, phase, now);
        case StreamProgress(id, bytes, chunks, input, output) => NoteProgress(id, bytes, chunks, input, output, now);
        case UsageUpdated(id, input, output) => active := active[id := ActiveReport(a, 0, 0, input, output, now)];
      }
    }

    method ApplyToRow(e: Event, now: Now)
      requires Sized(metrics.View()) && e.id !in active
      requires !e.RequestStarted? && !e.RequestCompleted? && !e.RequestFailed? && !e.RequestAbandoned?
      modifies this
      ensures var r := OnInactive(old(View()), e, now);
        View() == r.core && HistoryStep(old(Past()), Past(), r.emission, Shown(old(active), old(recent)), now)
    {
      hide LateReport, RowReport, FindRow, Proper, Recorded, Shown;
      match e {
        case StreamProgress(id, bytes, chunks, input, output) => NoteLate(id, bytes, chunks, input, output, now);
        case UsageUpdated(id, input, output) => NoteLate(id, 0, 0, input, output, now);
        case ClientTypeResolved(id, clientType) =>
          var found := FindRow(recent, id);
          if found.Some? {
            var row := recent[found.value];
            recent := recent[found.value := row.(marks := row.marks.(clientType := Some(clientType)))];
          }
        case _ =>
      }
    }
  }

  lemma StepBy(before: History, after: History, emission: Emission, shown: set<Key>, now: Now, victim: Option<Key>)
    requires var sample := Sample(emission.session, emission.stamp, emission.tokens, now.wall);
      Proper(before, sample, shown, victim) && after == Recorded(before, sample, victim)
    ensures HistoryStep(before, after, Some(emission), shown, now)
  {
    hide Proper, Recorded;
  }

  lemma NoEmission(past: History, shown: set<Key>, now: Now)
    ensures HistoryStep(past, past, None, shown, now)
  {}

  lemma SameShown(active: map<string, Active>, recent: seq<Row>, k: nat, row: Row)
    requires k < |recent| && row.session == recent[k].session
    ensures Shown(active, recent[k := row]) == Shown(active, recent)
  {
    var after := recent[k := row];
    forall s | s in SessionsOf(recent) ensures s in SessionsOf(after) {
      var j :| 0 <= j < |recent| && recent[j].session == s;
      assert after[j] in after && after[j].session == s;
    }
    forall s | s in SessionsOf(after) ensures s in SessionsOf(recent) {
      var j :| 0 <= j < |after| && after[j].session == s;
      assert recent[j] in recent && recent[j].session == s;
    }
  }
}
