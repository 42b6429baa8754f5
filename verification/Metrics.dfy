/** The process-lifetime metrics: counters, histograms, bounded label maps, and the phase timers of one request. */
module Metrics {
  import opened Text

  datatype Status =
    | Started | ProviderSelected | Upstream | Queued | Opening | Retrying | WaitingTool | Streaming
    | Completed | Abandoned | Failed

  datatype Endpoint = Messages | CountTokens

  /** Readings of the wall clock and of the monotonic clock, in nanoseconds. */
  datatype Now = Now(wall: nat, mono: nat)

  function Elapsed(now: Now, since: nat): nat {
    if now.mono >= since then now.mono - since else 0
  }

  datatype Timers = Timers(queuedAt: Option<nat>, openingAt: Option<nat>, firstByteAt: Option<nat>)

  const NO_TIMERS: Timers := Timers(None, None, None)

  /** What a finished request is counted under. */
  datatype Marks = Marks(provider: Option<string>, model: Option<string>, clientType: Option<string>,
                         account: Option<string>)

  // ---------------------------------------------------------------- histograms

  datatype Histogram = Histogram(buckets: seq<nat>, sum: nat, count: nat)

  /** The bucket bounds, in nanoseconds. */
  const BOUNDS: seq<nat> := [10_000_000, 100_000_000, 500_000_000, 1_000_000_000, 2_000_000_000, 5_000_000_000,
                             10_000_000_000, 30_000_000_000, 60_000_000_000, 120_000_000_000, 300_000_000_000]

  const NO_SAMPLES: Histogram := Histogram([0, 0, 0, 0, 0, 0, 0, 0, 0, 0, 0, 0], 0, 0)

  /** The first bound a duration does not exceed; one more bucket takes the rest. */
  function BucketOf(duration: nat, from: nat): (k: nat)
    requires from <= |BOUNDS|
    ensures from <= k <= |BOUNDS|
    ensures k < |BOUNDS| ==> duration <= BOUNDS[k]
    ensures forall j :: from <= j < k ==> duration > BOUNDS[j]
    decreases |BOUNDS| - from
  {
    if from == |BOUNDS| || duration <= BOUNDS[from] then from else BucketOf(duration, from + 1)
  }

  predicate WellSized(h: Histogram) {
    |h.buckets| == 12
  }

  function Observed(h: Histogram, duration: nat): (r: Histogram)
    ensures r.count == h.count + 1 && r.sum == h.sum + duration && |r.buckets| == |h.buckets|
  {
    var k := BucketOf(duration, 0);
    Histogram(if k < |h.buckets| then h.buckets[k := h.buckets[k] + 1] else h.buckets, h.sum + duration, h.count + 1)
  }

  function Total(counts: seq<nat>): nat {
    if counts == [] then 0 else counts[0] + Total(counts[1..])
  }

  lemma {:induction false} TotalUpdate(counts: seq<nat>, k: nat, value: nat)
    requires k < |counts|
    ensures Total(counts[k := value]) == Total(counts) - counts[k] + value
  {
    if k > 0 {
      assert counts[k := value][1..] == counts[1..][k - 1 := value];
      TotalUpdate(counts[1..], k - 1, value);
    } else {
      assert counts[k := value][1..] == counts[1..];
    }
  }

  /** A histogram's buckets add up to its count. */
  ghost predicate AddsUp(h: Histogram) {
    WellSized(h) && Total(h.buckets) == h.count
  }

  lemma ObservedAddsUp(h: Histogram, duration: nat)
    requires AddsUp(h)
    ensures AddsUp(Observed(h, duration))
  {
    var k := BucketOf(duration, 0);
    TotalUpdate(h.buckets, k, h.buckets[k] + 1);
  }

  /** Observe the time since a timer was started, if it was. */
  function ObservedSince(h: Histogram, since: Option<nat>, now: Now): (r: Histogram)
    ensures r.count == h.count + if since.Some? then 1 else 0
  {
    if since.Some? then Observed(h, Elapsed(now, since.value)) else h
  }

  // ---------------------------------------------------------------- labels and codes

  const MAX_LABEL_VALUES: nat := 256
  const MAX_LABEL_BYTES: nat := 96
  const OVERFLOW: string := "__other__"

  type Counts<!K> = map<K, nat>

  function Bumped<K>(counts: Counts<K>, key: K): (r: Counts<K>)
    ensures r.Keys == counts.Keys + {key}
  {
    counts[key := (if key in counts then counts[key] else 0) + 1]
  }

  function Label(labels: Counts<string>, value: string): string {
    var short := if |value| > MAX_LABEL_BYTES then OVERFLOW else value;
    if short in labels || |labels| < MAX_LABEL_VALUES then short else OVERFLOW
  }

  function Labelled(labels: Counts<string>, value: Option<string>): Counts<string> {
    Bumped(labels, Label(labels, value.GetOr("unknown")))
  }

  function Code(code: nat): nat {
    if 100 <= code <= 599 then code else 0
  }

  /** The sum of all counts. */
  ghost function Sum<K>(counts: Counts<K>): nat
    decreases |counts|
  {
    if counts == map[] then 0
    else
      var k :| k in counts;
      counts[k] + Sum(counts - {k})
  }

  lemma {:induction false} SumTakes<K>(counts: Counts<K>, key: K)
    requires key in counts
    ensures Sum(counts) == counts[key] + Sum(counts - {key})
    decreases |counts|
  {
    var k :| k in counts && Sum(counts) == counts[k] + Sum(counts - {k});
    if k != key {
      SumTakes(counts - {k}, key);
      SumTakes(counts - {key}, k);
      assert counts - {k} - {key} == counts - {key} - {k};
    }
  }

  lemma SumBumped<K>(counts: Counts<K>, key: K)
    ensures Sum(Bumped(counts, key)) == Sum(counts) + 1
  {
    var r := Bumped(counts, key);
    SumTakes(r, key);
    if key in counts {
      SumTakes(counts, key);
      assert r - {key} == counts - {key};
    } else {
      assert r - {key} == counts;
    }
  }

  /** Label maps stay small: no long key, at most 256 keys without the overflow one. */
  ghost predicate Bounded(labels: Counts<string>) {
    && |labels.Keys - {OVERFLOW}| <= MAX_LABEL_VALUES
    && forall k :: k in labels ==> |k| <= MAX_LABEL_BYTES
  }

  lemma OneMoreKey<T>(keys: set<T>, other: T, key: T, most: nat)
    requires |keys - {other}| <= most && (key == other || key in keys || |keys| < most)
    ensures |(keys + {key}) - {other}| <= most && |keys + {key}| <= most + 1
  {
    var grown := keys + {key};
    if key == other || key in keys {
      assert grown - {other} == keys - {other};
    } else {
      assert grown - {other} == keys - {other} + {key};
      Subset(keys - {other}, keys);
    }
    Subset(grown, (grown - {other}) + {other});
  }

  lemma LabelIsShort(labels: Counts<string>, value: Option<string>)
    ensures |Label(labels, value.GetOr("unknown"))| <= MAX_LABEL_BYTES
  {}

  lemma LabelledBounded(labels: Counts<string>, value: Option<string>)
    requires Bounded(labels)
    ensures Bounded(Labelled(labels, value)) && |Labelled(labels, value)| <= MAX_LABEL_VALUES + 1
  {
    hide Bumped;
    var key := Label(labels, value.GetOr("unknown"));
    LabelIsShort(labels, value);
    assert |labels.Keys| == |labels|;
    OneMoreKey(labels.Keys, OVERFLOW, key, MAX_LABEL_VALUES);
    assert |Labelled(labels, value).Keys| == |Labelled(labels, value)|;
  }

  lemma {:induction false} Subset<T>(a: set<T>, b: set<T>)
    requires a <= b
    ensures |a| <= |b|
  {
    if a != {} {
      var x :| x in a;
      Subset(a - {x}, b - {x});
    }
  }

  // ---------------------------------------------------------------- the store as a value

  datatype Store = Store(
    started: seq<nat>, outcomes: seq<nat>, retries: nat,
    terminalCodes: Counts<nat>, upstreamCodes: Counts<nat>,
    providers: Counts<string>, models: Counts<string>, clients: Counts<string>, accounts: Counts<string>,
    queueWait: Histogram, opening: Histogram, firstByte: Histogram, duration: Histogram, streamLifetime: Histogram)

  const EMPTY_STORE: Store := Store([0, 0], [0, 0, 0], 0, map[], map[], map[], map[], map[], map[],
                                    NO_SAMPLES, NO_SAMPLES, NO_SAMPLES, NO_SAMPLES, NO_SAMPLES)

  predicate Sized(s: Store) {
    |s.started| == 2 && |s.outcomes| == 3
  }

  function EndpointIndex(endpoint: Endpoint): nat {
    if endpoint == Messages then 0 else 1
  }

  function OutcomeIndex(status: Status): Option<nat> {
    match status
    case Completed => Some(0)
    case Failed => Some(1)
    case Abandoned => Some(2)
    case _ => None
  }

  function OnStarted(s: Store, endpoint: Endpoint): Store
    requires Sized(s)
  {
    var k := EndpointIndex(endpoint);
    s.(started := s.started[k := s.started[k] + 1])
  }

  /** Leaving a phase stops its timer, entering Queued or Opening starts one; a repeated phase changes nothing. */
  function OnPhase(s: Store, timers: Timers, before: Status, phase: Status, now: Now): (Store, Timers) {
    var s1 := if phase == Retrying then s.(retries := s.retries + 1) else s;
    if before == phase then (s1, timers)
    else
      (s1.(queueWait := ObservedSince(s1.queueWait, timers.queuedAt, now),
           opening := ObservedSince(s1.opening, timers.openingAt, now)),
       timers.(queuedAt := if phase == Queued then Some(now.mono) else None,
               openingAt := if phase == Opening then Some(now.mono) else None))
  }

  function OnProgress(s: Store, timers: Timers, startedInstant: nat, bytes: nat, now: Now): (Store, Timers) {
    var first := bytes > 0 && timers.firstByteAt.None?;
    (s.(firstByte := if first then Observed(s.firstByte, Elapsed(now, startedInstant)) else s.firstByte,
        queueWait := ObservedSince(s.queueWait, timers.queuedAt, now),
        opening := ObservedSince(s.opening, timers.openingAt, now)),
     Timers(None, None, if first then Some(now.mono) else timers.firstByteAt))
  }

  function OnFinished(s: Store, timers: Timers, startedInstant: nat, marks: Marks, status: Status,
                      code: Option<nat>, now: Now): (r: Store)
    requires Sized(s)
    ensures Sized(r)
  {
    match OutcomeIndex(status)
    case None => s
    case Some(k) =>
      var counted := s.(outcomes := s.outcomes[k := s.outcomes[k] + 1],
                        terminalCodes := Bumped(s.terminalCodes, Code(code.GetOr(0))));
      Marked(Stopped(counted, timers, startedInstant, now), marks)
  }

  function Stopped(s: Store, timers: Timers, startedInstant: nat, now: Now): Store {
    s.(duration := Observed(s.duration, Elapsed(now, startedInstant)),
       queueWait := ObservedSince(s.queueWait, timers.queuedAt, now),
       opening := ObservedSince(s.opening, timers.openingAt, now),
       streamLifetime := ObservedSince(s.streamLifetime, timers.firstByteAt, now))
  }

  function Marked(s: Store, marks: Marks): Store {
    s.(providers := Labelled(s.providers, marks.provider),
       models := Labelled(s.models, marks.model),
       clients := Labelled(s.clients, marks.clientType),
       accounts := Labelled(s.accounts, marks.account))
  }

  function Outcomes(s: Store): nat
    requires Sized(s)
  {
    s.outcomes[0] + s.outcomes[1] + s.outcomes[2]
  }

  /** All that is counted once per outcome agrees, and every map and histogram is in shape. */
  ghost predicate Consistent(s: Store) {
    && Sized(s)
    && Outcomes(s) == s.duration.count == Sum(s.terminalCodes)
    && Sum(s.providers) == Sum(s.models) == Sum(s.clients) == Sum(s.accounts) == Outcomes(s)
    && Bounded(s.providers) && Bounded(s.models) && Bounded(s.clients) && Bounded(s.accounts)
    && AddsUp(s.queueWait) && AddsUp(s.opening) && AddsUp(s.firstByte) && AddsUp(s.duration) && AddsUp(s.streamLifetime)
  }

  lemma SinceAddsUp(h: Histogram, since: Option<nat>, now: Now)
    requires AddsUp(h)
    ensures AddsUp(ObservedSince(h, since, now))
  {
    hide AddsUp, Observed;
    if since.Some? {
      ObservedAddsUp(h, Elapsed(now, since.value));
    }
  }

  lemma FinishedConsistent(s: Store, timers: Timers, startedInstant: nat, marks: Marks, status: Status,
                           code: Option<nat>, now: Now)
    requires Consistent(s)
    ensures Consistent(OnFinished(s, timers, startedInstant, marks, status, code, now))
  {
    hide AddsUp, Sum, Bounded, Labelled, ObservedSince, Observed, Bumped, BucketOf, Code, Elapsed;
    if OutcomeIndex(status).Some? {
      ObservedAddsUp(s.duration, Elapsed(now, startedInstant));
      SinceAddsUp(s.queueWait, timers.queuedAt, now);
      SinceAddsUp(s.opening, timers.openingAt, now);
      SinceAddsUp(s.streamLifetime, timers.firstByteAt, now);
      SumBumped(s.terminalCodes, Code(code.GetOr(0)));
      LabelCounted(s.providers, marks.provider);
      LabelCounted(s.models, marks.model);
      LabelCounted(s.clients, marks.clientType);
      LabelCounted(s.accounts, marks.account);
    }
  }

  lemma LabelCounted(labels: Counts<string>, value: Option<string>)
    requires Bounded(labels)
    ensures Bounded(Labelled(labels, value)) && Sum(Labelled(labels, value)) == Sum(labels) + 1
  {
    hide Bounded, Sum;
    LabelledBounded(labels, value);
    SumBumped(labels, Label(labels, value.GetOr("unknown")));
  }

  lemma PhaseConsistent(s: Store, timers: Timers, before: Status, phase: Status, now: Now)
    requires Consistent(s)
    ensures Consistent(OnPhase(s, timers, before, phase, now).0)
  {
    hide AddsUp, Sum, Bounded, ObservedSince;
    SinceAddsUp(s.queueWait, timers.queuedAt, now);
    SinceAddsUp(s.opening, timers.openingAt, now);
  }

  lemma ProgressConsistent(s: Store, timers: Timers, startedInstant: nat, bytes: nat, now: Now)
    requires Consistent(s)
    ensures Consistent(OnProgress(s, timers, startedInstant, bytes, now).0)
  {
    hide AddsUp, Sum, Bounded, ObservedSince, BucketOf;
    SinceAddsUp(s.queueWait, timers.queuedAt, now);
    SinceAddsUp(s.opening, timers.openingAt, now);
    ObservedAddsUp(s.firstByte, Elapsed(now, startedInstant));
  }

  lemma EmptyConsistent()
    ensures Consistent(EMPTY_STORE)
  {
    hide Bounded, Total;
    NoSamplesAddUp([0, 0, 0, 0, 0, 0, 0, 0, 0, 0, 0, 0]);
    NothingBounded();
  }

  lemma NothingBounded()
    ensures Bounded(map[]) && Sum<string>(map[]) == 0 && Sum<nat>(map[]) == 0
  {}

  lemma {:induction false} NoSamplesAddUp(counts: seq<nat>)
    requires forall i :: 0 <= i < |counts| ==> counts[i] == 0
    ensures Total(counts) == 0
  {
    if counts != [] {
      NoSamplesAddUp(counts[1..]);
    }
  }
}
