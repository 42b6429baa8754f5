/** What each counter of the metrics counts, event by event over every run. */
module MonitorCounts {
  import opened Text
  import opened Metrics
  import opened Monitoring
  import opened MonitorBooks

  // ---------------------------------------------------------------- said of an event and the state it meets

  predicate StartsMessages(c: Core, e: Event) {
    e.RequestStarted? && e.endpoint == Messages
  }

  predicate StartsCounting(c: Core, e: Event) {
    e.RequestStarted? && e.endpoint == CountTokens
  }

  /** A failure or an abandonment of the id is on record. */
  predicate BadlyOnRecord(c: Core, id: string) {
    exists k :: 0 <= k < |c.recent| && c.recent[k].id == id && c.recent[k].status in {Failed, Abandoned}
  }

  predicate CompletesActive(c: Core, e: Event) {
    e.RequestCompleted? && e.id in c.active && !BadlyOnRecord(c, e.id)
  }

  predicate FailsActive(c: Core, e: Event) {
    e.RequestFailed? && e.id in c.active
  }

  predicate AbandonsActive(c: Core, e: Event) {
    e.RequestAbandoned? && e.id in c.active
  }

  predicate EndsActive(c: Core, e: Event) {
    CompletesActive(c, e) || FailsActive(c, e) || AbandonsActive(c, e)
  }

  /** A status code from 100 to 599 is counted as it is, any other as 0; an abandonment has none. */
  function CodeNamed(e: Event): nat {
    match e
    case RequestCompleted(_, code, _, _) => if 100 <= code <= 599 then code else 0
    case RequestFailed(_, Some(code), _) => if 100 <= code <= 599 then code else 0
    case UpstreamError(_, code) => if 100 <= code <= 599 then code else 0
    case _ => 0
  }

  predicate EndsWithCode(c: Core, e: Event, code: nat) {
    EndsActive(c, e) && CodeNamed(e) == code
  }

  predicate UpstreamFails(c: Core, e: Event, code: nat) {
    e.UpstreamError? && e.id in c.active && CodeNamed(e) == code
  }

  predicate Retries(c: Core, e: Event) {
    e.RequestPhase? && e.phase == Retrying && e.id in c.active
  }

  function CountAt<K>(counts: Counts<K>, key: K): nat {
    if key in counts then counts[key] else 0
  }

  // ---------------------------------------------------------------- one event

  ghost predicate StoreCounts(s: Store, s1: Store, c: Core, e: Event)
    requires Sized(s) && Sized(s1)
  {
    && s1.started[0] == s.started[0] + One(StartsMessages(c, e))
    && s1.started[1] == s.started[1] + One(StartsCounting(c, e))
    && s1.outcomes[0] == s.outcomes[0] + One(CompletesActive(c, e))
    && s1.outcomes[1] == s.outcomes[1] + One(FailsActive(c, e))
    && s1.outcomes[2] == s.outcomes[2] + One(AbandonsActive(c, e))
    && s1.retries == s.retries + One(Retries(c, e))
    && (forall k :: CountAt(s1.terminalCodes, k) == CountAt(s.terminalCodes, k) + One(EndsWithCode(c, e, k)))
    && (forall k :: CountAt(s1.upstreamCodes, k) == CountAt(s.upstreamCodes, k) + One(UpstreamFails(c, e, k)))
  }

  lemma BumpedAt<K>(counts: Counts<K>, key: K, k: K)
    ensures CountAt(Bumped(counts, key), k) == CountAt(counts, k) + One(k == key)
  {}

  /** A request that was active ends. */
  lemma EndCounted(s: Store, a: Active, status: Status, code: Option<nat>, now: Now)
    requires Sized(s) && status in {Completed, Failed, Abandoned}
    ensures var s1 := OnFinished(s, a.timers, a.startedInstant, a.marks, status, code, now);
      && Sized(s1) && s1.started == s.started && s1.retries == s.retries && s1.upstreamCodes == s.upstreamCodes
      && s1.outcomes[0] == s.outcomes[0] + One(status == Completed)
      && s1.outcomes[1] == s.outcomes[1] + One(status == Failed)
      && s1.outcomes[2] == s.outcomes[2] + One(status == Abandoned)
      && (forall k :: CountAt(s1.terminalCodes, k)
            == CountAt(s.terminalCodes, k) + One(k == if 100 <= code.GetOr(0) <= 599 then code.GetOr(0) else 0))
  {
    hide Observed, ObservedSince, Labelled, Bumped, Elapsed;
    var s1 := OnFinished(s, a.timers, a.startedInstant, a.marks, status, code, now);
    forall k ensures CountAt(s1.terminalCodes, k)
        == CountAt(s.terminalCodes, k) + One(k == if 100 <= code.GetOr(0) <= 599 then code.GetOr(0) else 0) {
      BumpedAt(s.terminalCodes, Code(code.GetOr(0)), k);
    }
  }

  lemma RecordedBadly(c: Core, id: string, status: Status)
    ensures Overruled(c, id, status) <==> status == Completed && BadlyOnRecord(c, id)
  {}

  lemma FinishCounted(c: Core, e: Event, status: Status, code: Option<nat>, input: Option<nat>, output: Option<nat>,
                      error: Option<string>, now: Now)
    requires Sized(c.metrics)
    requires match e
      case RequestCompleted(_, n, _, _) => status == Completed && code == Some(n)
      case RequestFailed(_, maybe, _) => status == Failed && code == maybe
      case RequestAbandoned(_, _) => status == Abandoned && code == None
      case _ => false
    ensures var c1 := Finish(c, e.id, status, code, input, output, error, now).core;
      Sized(c1.metrics) && StoreCounts(c.metrics, c1.metrics, c, e)
  {
    hide OnFinished, Ended, Pushed, FinalEmission, Begun, Overruled, BadlyOnRecord;
    RecordedBadly(c, e.id, status);
    if e.id in c.active {
      EndCounted(c.metrics, c.active[e.id], status, code, now);
    }
  }

  lemma PhaseCounted(s: Store, timers: Timers, before: Status, phase: Status, now: Now)
    ensures var s1 := OnPhase(s, timers, before, phase, now).0;
      && s1.started == s.started && s1.outcomes == s.outcomes && s1.retries == s.retries + One(phase == Retrying)
      && s1.terminalCodes == s.terminalCodes && s1.upstreamCodes == s.upstreamCodes
      && s1.providers == s.providers && s1.models == s.models && s1.clients == s.clients && s1.accounts == s.accounts
  {
    hide ObservedSince;
  }

  lemma ProgressCounted(s: Store, timers: Timers, startedInstant: nat, bytes: nat, now: Now)
    ensures var s1 := OnProgress(s, timers, startedInstant, bytes, now).0;
      && s1.started == s.started && s1.outcomes == s.outcomes && s1.retries == s.retries
      && s1.terminalCodes == s.terminalCodes && s1.upstreamCodes == s.upstreamCodes
      && s1.providers == s.providers && s1.models == s.models && s1.clients == s.clients && s1.accounts == s.accounts
  {
    hide ObservedSince, Observed, Elapsed;
  }

  /** What an event that ends no request does to the counters, one by one. */
  lemma OtherStore(c: Core, e: Event, now: Now)
    requires Sized(c.metrics) && !e.RequestCompleted? && !e.RequestFailed? && !e.RequestAbandoned?
    ensures var s, s1 := c.metrics, Apply(c, e, now).core.metrics;
      && s1.started == (if e.RequestStarted? then OnStarted(s, e.endpoint).started else s.started)
      && s1.outcomes == s.outcomes && s1.terminalCodes == s.terminalCodes
      && s1.retries == s.retries + One(e.RequestPhase? && e.phase == Retrying && e.id in c.active)
      && s1.upstreamCodes == (if e.UpstreamError? && e.id in c.active then Bumped(s.upstreamCodes, Code(e.code))
                              else s.upstreamCodes)
      && s1.providers == s.providers && s1.models == s.models && s1.clients == s.clients && s1.accounts == s.accounts
  {
    hide FindRow, ActiveReport, RowReport, LateEmission, Bumped, OnPhase, OnProgress, Renamed, Finish, Code;
    if e.id in c.active {
      var a := c.active[e.id];
      match e {
        case ProviderChosen(_, _, _) => PhaseCounted(c.metrics, a.timers, a.status, ProviderSelected, now);
        case RequestPhase(_, phase) => PhaseCounted(c.metrics, a.timers, a.status, phase, now);
        case StreamProgress(_, bytes, _, _, _) => ProgressCounted(c.metrics, a.timers, a.startedInstant, bytes, now);
        case _ =>
      }
    }
  }

  lemma UpstreamCounted(c: Core, e: Event, now: Now)
    requires Sized(c.metrics) && !e.RequestCompleted? && !e.RequestFailed? && !e.RequestAbandoned?
    ensures var s, s1 := c.metrics, Apply(c, e, now).core.metrics;
      forall k :: CountAt(s1.upstreamCodes, k) == CountAt(s.upstreamCodes, k) + One(UpstreamFails(c, e, k))
  {
    hide Apply, Bumped;
    OtherStore(c, e, now);
    if e.UpstreamError? && e.id in c.active {
      forall k ensures CountAt(Bumped(c.metrics.upstreamCodes, Code(e.code)), k)
          == CountAt(c.metrics.upstreamCodes, k) + One(UpstreamFails(c, e, k)) {
        BumpedAt(c.metrics.upstreamCodes, Code(e.code), k);
      }
    }
  }

  lemma NothingEnds(c: Core, e: Event)
    requires !e.RequestCompleted? && !e.RequestFailed? && !e.RequestAbandoned?
    ensures !CompletesActive(c, e) && !FailsActive(c, e) && !AbandonsActive(c, e)
    ensures forall k :: !EndsWithCode(c, e, k)
  {}

  lemma OtherCounted(c: Core, e: Event, now: Now)
    requires Sized(c.metrics) && !e.RequestCompleted? && !e.RequestFailed? && !e.RequestAbandoned?
    ensures StoreCounts(c.metrics, Apply(c, e, now).core.metrics, c, e)
  {
    hide Apply, Bumped, UpstreamFails, EndsWithCode, CompletesActive, FailsActive, AbandonsActive, CountAt;
    OtherStore(c, e, now);
    UpstreamCounted(c, e, now);
    NothingEnds(c, e);
  }

  /** Every event moves exactly the counters that are said to count it. */
  lemma StepCounts(c: Core, e: Event, now: Now)
    requires Sized(c.metrics)
    ensures StoreCounts(c.metrics, Apply(c, e, now).core.metrics, c, e)
  {
    hide Finish, StoreCounts;
    match e {
      case RequestCompleted(id, code, input, output) =>
        FinishCounted(c, e, Completed, Some(code), input, output, None, now);
      case RequestFailed(id, code, error) => FinishCounted(c, e, Failed, code, None, None, Some(error), now);
      case RequestAbandoned(id, error) =>
        if id in c.active {
          FinishCounted(c, e, Abandoned, None, None, None, Some(error), now);
        } else {
          NothingCounted(c, e);
        }
      case _ => OtherCounted(c, e, now);
    }
  }

  lemma NothingCounted(c: Core, e: Event)
    requires Sized(c.metrics) && e.RequestAbandoned? && e.id !in c.active
    ensures StoreCounts(c.metrics, c.metrics, c, e)
  {}

  // ---------------------------------------------------------------- whole runs

  /** How many events of the run meet a state of which this holds. */
  function Count(c: Core, events: seq<Timestamped>, holds: (Core, Event) -> bool): nat
    requires Sized(c.metrics)
    decreases |events|
  {
    if events == [] then 0
    else One(holds(c, events[0].event)) + Count(Apply(c, events[0].event, events[0].now).core, events[1..], holds)
  }

  /** Over every run, each counter grows by the number of events it counts. */
  lemma {:induction false} RunCounts(c: Core, events: seq<Timestamped>)
    requires Sized(c.metrics)
    ensures var s, s1 := c.metrics, After(c, events).metrics;
      && s1.started[0] == s.started[0] + Count(c, events, StartsMessages)
      && s1.started[1] == s.started[1] + Count(c, events, StartsCounting)
      && s1.outcomes[0] == s.outcomes[0] + Count(c, events, CompletesActive)
      && s1.outcomes[1] == s.outcomes[1] + Count(c, events, FailsActive)
      && s1.outcomes[2] == s.outcomes[2] + Count(c, events, AbandonsActive)
      && s1.retries == s.retries + Count(c, events, Retries)
    decreases |events|
  {
    hide Apply, CompletesActive, FailsActive, AbandonsActive, StartsMessages, StartsCounting, Retries;
    if events != [] {
      StepCounts(c, events[0].event, events[0].now);
      RunCounts(Apply(c, events[0].event, events[0].now).core, events[1..]);
    }
  }

  lemma {:induction false} RunCodes(c: Core, events: seq<Timestamped>, code: nat)
    requires Sized(c.metrics)
    ensures var s, s1 := c.metrics, After(c, events).metrics;
      && CountAt(s1.terminalCodes, code)
         == CountAt(s.terminalCodes, code) + Count(c, events, (c, e) => EndsWithCode(c, e, code))
      && CountAt(s1.upstreamCodes, code)
         == CountAt(s.upstreamCodes, code) + Count(c, events, (c, e) => UpstreamFails(c, e, code))
    decreases |events|
  {
    hide Apply, EndsWithCode, UpstreamFails;
    if events != [] {
      StepCounts(c, events[0].event, events[0].now);
      RunCodes(Apply(c, events[0].event, events[0].now).core, events[1..], code);
    }
  }

  /** Over every run from an empty monitor: the first outcome counter is the number of active requests completed, the
      second of those that failed, the third of those abandoned; the started counters are the requests started by
      endpoint; the code counters are the requests ended with a code and the upstream errors of a code. */
  lemma CountersMeanWhatTheySay(limit: nat, events: seq<Timestamped>, code: nat)
    ensures var c := Fresh(limit); var s := After(c, events).metrics;
      && s.started == [Count(c, events, StartsMessages), Count(c, events, StartsCounting)]
      && s.outcomes == [Count(c, events, CompletesActive), Count(c, events, FailsActive),
                        Count(c, events, AbandonsActive)]
      && s.retries == Count(c, events, Retries)
      && CountAt(s.terminalCodes, code) == Count(c, events, (c, e) => EndsWithCode(c, e, code))
      && CountAt(s.upstreamCodes, code) == Count(c, events, (c, e) => UpstreamFails(c, e, code))
  {
    hide After, Count;
    RunCounts(Fresh(limit), events);
    RunCodes(Fresh(limit), events, code);
  }

  // ---------------------------------------------------------------- labels

  /** The name an ended request is counted under. */
  function NamedBy(c: Core, e: Event, mark: Marks -> Option<string>): seq<string> {
    if EndsActive(c, e) then [mark(c.active[e.id].marks).GetOr("unknown")] else []
  }

  function ProviderOf(marks: Marks): Option<string> {
    marks.provider
  }

  function ModelOf(marks: Marks): Option<string> {
    marks.model
  }

  function ClientOf(marks: Marks): Option<string> {
    marks.clientType
  }

  function AccountOf(marks: Marks): Option<string> {
    marks.account
  }

  function Names(c: Core, events: seq<Timestamped>, mark: Marks -> Option<string>): seq<string>
    requires Sized(c.metrics)
    decreases |events|
  {
    if events == [] then []
    else NamedBy(c, events[0].event, mark)
         + Names(Apply(c, events[0].event, events[0].now).core, events[1..], mark)
  }

  function LabelledAll(labels: Counts<string>, names: seq<string>): Counts<string>
    decreases |names|
  {
    if names == [] then labels else LabelledAll(Labelled(labels, Some(names[0])), names[1..])
  }

  lemma {:induction false} LabelledThen(labels: Counts<string>, a: seq<string>, b: seq<string>)
    ensures LabelledAll(labels, a + b) == LabelledAll(LabelledAll(labels, a), b)
    decreases |a|
  {
    hide Labelled;
    if a == [] {
      assert a + b == b;
    } else {
      assert (a + b)[0] == a[0] && (a + b)[1..] == a[1..] + b;
      LabelledThen(Labelled(labels, Some(a[0])), a[1..], b);
    }
  }

  ghost predicate LabelsFollow(s: Store, s1: Store, c: Core, e: Event) {
    && s1.providers == LabelledAll(s.providers, NamedBy(c, e, ProviderOf))
    && s1.models == LabelledAll(s.models, NamedBy(c, e, ModelOf))
    && s1.clients == LabelledAll(s.clients, NamedBy(c, e, ClientOf))
    && s1.accounts == LabelledAll(s.accounts, NamedBy(c, e, AccountOf))
  }

  lemma LabelledOne(labels: Counts<string>, value: Option<string>)
    ensures LabelledAll(labels, [value.GetOr("unknown")]) == Labelled(labels, value)
  {
    assert [value.GetOr("unknown")][1..] == [];
    assert LabelledAll(Labelled(labels, value), []) == Labelled(labels, value);
  }

  lemma EndLabelled(s: Store, a: Active, status: Status, code: Option<nat>, now: Now)
    requires Sized(s) && status in {Completed, Failed, Abandoned}
    ensures var s1 := OnFinished(s, a.timers, a.startedInstant, a.marks, status, code, now);
      && s1.providers == LabelledAll(s.providers, [a.marks.provider.GetOr("unknown")])
      && s1.models == LabelledAll(s.models, [a.marks.model.GetOr("unknown")])
      && s1.clients == LabelledAll(s.clients, [a.marks.clientType.GetOr("unknown")])
      && s1.accounts == LabelledAll(s.accounts, [a.marks.account.GetOr("unknown")])
  {
    hide Observed, ObservedSince, Labelled, LabelledAll, Bumped, Elapsed;
    LabelledOne(s.providers, a.marks.provider);
    LabelledOne(s.models, a.marks.model);
    LabelledOne(s.clients, a.marks.clientType);
    LabelledOne(s.accounts, a.marks.account);
  }

  lemma FinishLabelled(c: Core, e: Event, status: Status, code: Option<nat>, input: Option<nat>, output: Option<nat>,
                       error: Option<string>, now: Now)
    requires Sized(c.metrics)
    requires match e
      case RequestCompleted(_, n, _, _) => status == Completed && code == Some(n)
      case RequestFailed(_, maybe, _) => status == Failed && code == maybe
      case RequestAbandoned(_, _) => status == Abandoned && code == None
      case _ => false
    ensures LabelsFollow(c.metrics, Finish(c, e.id, status, code, input, output, error, now).core.metrics, c, e)
  {
    hide OnFinished, Ended, Pushed, FinalEmission, Begun, Overruled, BadlyOnRecord, LabelledAll;
    RecordedBadly(c, e.id, status);
    NoNames(c.metrics);
    if e.id in c.active {
      EndLabelled(c.metrics, c.active[e.id], status, code, now);
    }
  }

  lemma OtherLabelled(c: Core, e: Event, now: Now)
    requires Sized(c.metrics) && !e.RequestCompleted? && !e.RequestFailed? && !e.RequestAbandoned?
    ensures LabelsFollow(c.metrics, Apply(c, e, now).core.metrics, c, e)
  {
    hide Apply;
    OtherStore(c, e, now);
  }

  lemma StepLabels(c: Core, e: Event, now: Now)
    requires Sized(c.metrics)
    ensures LabelsFollow(c.metrics, Apply(c, e, now).core.metrics, c, e)
  {
    hide Finish, LabelsFollow;
    match e {
      case RequestCompleted(id, code, input, output) =>
        FinishLabelled(c, e, Completed, Some(code), input, output, None, now);
      case RequestFailed(id, code, error) => FinishLabelled(c, e, Failed, code, None, None, Some(error), now);
      case RequestAbandoned(id, error) =>
        if id in c.active {
          FinishLabelled(c, e, Abandoned, None, None, None, Some(error), now);
        } else {
          NothingLabelled(c, e);
        }
      case _ => OtherLabelled(c, e, now);
    }
  }

  lemma NothingLabelled(c: Core, e: Event)
    requires e.RequestAbandoned? && e.id !in c.active
    ensures LabelsFollow(c.metrics, c.metrics, c, e)
  {}

  lemma {:induction false} RunLabels(c: Core, events: seq<Timestamped>)
    requires Sized(c.metrics)
    ensures var s, s1 := c.metrics, After(c, events).metrics;
      && s1.providers == LabelledAll(s.providers, Names(c, events, ProviderOf))
      && s1.models == LabelledAll(s.models, Names(c, events, ModelOf))
      && s1.clients == LabelledAll(s.clients, Names(c, events, ClientOf))
      && s1.accounts == LabelledAll(s.accounts, Names(c, events, AccountOf))
    decreases |events|
  {
    hide Apply, NamedBy, LabelledAll;
    if events == [] {
      NoNames(c.metrics);
    } else {
      var e, c1 := events[0].event, Apply(c, events[0].event, events[0].now).core;
      StepLabels(c, e, events[0].now);
      RunLabels(c1, events[1..]);
      LabelledThen(c.metrics.providers, NamedBy(c, e, ProviderOf), Names(c1, events[1..], ProviderOf));
      LabelledThen(c.metrics.models, NamedBy(c, e, ModelOf), Names(c1, events[1..], ModelOf));
      LabelledThen(c.metrics.clients, NamedBy(c, e, ClientOf), Names(c1, events[1..], ClientOf));
      LabelledThen(c.metrics.accounts, NamedBy(c, e, AccountOf), Names(c1, events[1..], AccountOf));
    }
  }

  lemma NoNames(s: Store)
    ensures LabelledAll(s.providers, []) == s.providers && LabelledAll(s.models, []) == s.models
    ensures LabelledAll(s.clients, []) == s.clients && LabelledAll(s.accounts, []) == s.accounts
  {}

  /** The names as they are counted: one longer than 96 bytes, and a new one once 256 are there, as `__other__`. */
  function Shown(names: seq<string>): (r: seq<string>)
    ensures |r| == |names|
  {
    if names == [] then []
    else
      var n := |names| - 1;
      var before, name := Shown(names[..n]), names[n];
      before + [if |name| <= 96 && (name in before || |Distinct(before)| < 256) then name else "__other__"]
  }

  function Distinct(names: seq<string>): set<string> {
    set name | name in names
  }

  lemma NothingLabelledYet()
    ensures LabelledAll(map[], []) == map[]
  {}

  lemma {:induction false} CountedAsShown(names: seq<string>)
    ensures var labels := LabelledAll(map[], names);
      labels.Keys == Distinct(Shown(names)) && forall v :: CountAt(labels, v) == multiset(Shown(names))[v]
  {
    hide LabelledAll, Bumped;
    if names == [] {
      NothingLabelledYet();
    } else {
      var n := |names| - 1;
      CountedAsShown(names[..n]);
      assert names == names[..n] + [names[n]];
      LabelledThen(map[], names[..n], [names[n]]);
      var labels := LabelledAll(map[], names[..n]);
      LabelledOne(labels, Some(names[n]));
      assert |labels| == |labels.Keys|;
      var before, shown := Shown(names[..n]), Shown(names);
      assert shown == before + [shown[n]];
      assert Distinct(shown) == Distinct(before) + {shown[n]};
      forall v ensures CountAt(LabelledAll(map[], names), v) == multiset(Shown(names))[v] {
        BumpedAt(labels, Label(labels, names[n]), v);
      }
    }
  }

  /** Over every run from an empty monitor, whatever the names: each label counts the ended requests whose name is
      shown as it. */
  lemma LabelsExactly(limit: nat, events: seq<Timestamped>, v: string)
    ensures var c := Fresh(limit); var s := After(c, events).metrics;
      && CountAt(s.providers, v) == multiset(Shown(Names(c, events, ProviderOf)))[v]
      && CountAt(s.models, v) == multiset(Shown(Names(c, events, ModelOf)))[v]
      && CountAt(s.clients, v) == multiset(Shown(Names(c, events, ClientOf)))[v]
      && CountAt(s.accounts, v) == multiset(Shown(Names(c, events, AccountOf)))[v]
  {
    hide After, Names, LabelledAll, Shown;
    var c := Fresh(limit);
    RunLabels(c, events);
    CountedAsShown(Names(c, events, ProviderOf));
    CountedAsShown(Names(c, events, ModelOf));
    CountedAsShown(Names(c, events, ClientOf));
    CountedAsShown(Names(c, events, AccountOf));
  }
}
