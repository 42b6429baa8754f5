/** The per-session output history: a bounded index of ten-second buckets over a sliding hour. */
module OutputHistory {
  import opened Text
  import Metrics

  const NANOS: nat := 1_000_000_000
  const SESSION_TOKEN_BUCKET_SECS: nat := 10
  const SESSION_OUTPUT_HISTORY_SECS: nat := 60 * 60
  const SESSION_OUTPUT_MAX_SESSIONS: nat := 4_096
  const SESSION_OUTPUT_PRUNE_INTERVAL_SECS: nat := 60

  /** The window, in buckets: 360. */
  const WINDOW: nat := SESSION_OUTPUT_HISTORY_SECS / SESSION_TOKEN_BUCKET_SECS

  type Key = Option<string>

  datatype Bucket = Bucket(at: nat, tokens: nat)

  datatype History = History(buckets: map<Key, seq<Bucket>>, lastPruned: Option<nat>)

  /** Tokens of a session at a time, and the time they are reported; times in nanoseconds. */
  datatype Sample = Sample(session: Key, stamp: nat, tokens: nat, now: nat)

  function BucketOf(time: nat): nat {
    time / NANOS / SESSION_TOKEN_BUCKET_SECS
  }

  function FirstBucket(nowBucket: nat): nat {
    if nowBucket >= WINDOW - 1 then nowBucket - (WINDOW - 1) else 0
  }

  // ---------------------------------------------------------------- one vector

  predicate Increasing(bs: seq<Bucket>) {
    forall i, j :: 0 <= i < j < |bs| ==> bs[i].at < bs[j].at
  }

  function DropBefore(bs: seq<Bucket>, first: nat): (r: seq<Bucket>)
    ensures |r| <= |bs|
    ensures r != [] ==> r[0].at >= first
  {
    if bs == [] || bs[0].at >= first then bs else DropBefore(bs[1..], first)
  }

  lemma {:induction false} DropIsSuffix(bs: seq<Bucket>, first: nat)
    ensures DropBefore(bs, first) == bs[|bs| - |DropBefore(bs, first)|..]
  {
    if bs != [] && bs[0].at < first {
      DropIsSuffix(bs[1..], first);
    }
  }

  /** Add to the bucket if it is there, else insert it in its place. */
  function AddTo(bs: seq<Bucket>, at: nat, tokens: nat): seq<Bucket> {
    if bs == [] || at < bs[0].at then [Bucket(at, tokens)] + bs
    else if bs[0].at == at then [Bucket(at, bs[0].tokens + tokens)] + bs[1..]
    else [bs[0]] + AddTo(bs[1..], at, tokens)
  }

  function TokensIn(bs: seq<Bucket>, k: nat): nat {
    if bs == [] then 0 else (if bs[0].at == k then bs[0].tokens else 0) + TokensIn(bs[1..], k)
  }

  lemma {:induction false} NothingBelow(bs: seq<Bucket>, k: nat)
    requires forall i :: 0 <= i < |bs| ==> bs[i].at != k
    ensures TokensIn(bs, k) == 0
  {
    if bs != [] {
      NothingBelow(bs[1..], k);
    }
  }

  lemma {:induction false} DropKeepsWindow(bs: seq<Bucket>, first: nat, k: nat)
    requires k >= first
    ensures TokensIn(DropBefore(bs, first), k) == TokensIn(bs, k)
  {
    if bs != [] && bs[0].at < first {
      DropKeepsWindow(bs[1..], first, k);
    }
  }

  lemma {:induction false} AddToIncreasing(bs: seq<Bucket>, at: nat, tokens: nat)
    requires Increasing(bs)
    ensures var r := AddTo(bs, at, tokens);
      && Increasing(r) && r != []
      && (forall i :: 0 <= i < |r| ==> r[i].at == at || exists j :: 0 <= j < |bs| && bs[j].at == r[i].at)
  {
    if bs != [] && bs[0].at < at {
      AddToIncreasing(bs[1..], at, tokens);
      var rest := AddTo(bs[1..], at, tokens);
      forall i | 0 <= i < |rest|
        ensures bs[0].at < rest[i].at
        ensures (rest[i].at == at || exists j :: 0 <= j < |bs| && bs[j].at == rest[i].at)
      {
        if rest[i].at != at {
          var j :| 0 <= j < |bs[1..]| && bs[1..][j].at == rest[i].at;
          assert bs[j + 1].at == rest[i].at;
        }
      }
    } else if bs != [] {
      var r := AddTo(bs, at, tokens);
      assert forall i :: 0 < i < |bs| ==> bs[1..][i - 1] == bs[i];
      forall i | 0 <= i < |r| ensures r[i].at == at || exists j :: 0 <= j < |bs| && bs[j].at == r[i].at {
        if i > 0 {
          var j := if at < bs[0].at then i - 1 else i;
          assert bs[j].at == r[i].at;
        }
      }
    }
  }

  lemma {:induction false} AddToCounts(bs: seq<Bucket>, at: nat, tokens: nat, k: nat)
    requires Increasing(bs)
    ensures TokensIn(AddTo(bs, at, tokens), k) == TokensIn(bs, k) + if k == at then tokens else 0
  {
    if bs == [] || at < bs[0].at {
      assert ([Bucket(at, tokens)] + bs)[1..] == bs;
    } else if bs[0].at == at {
      assert ([Bucket(at, bs[0].tokens + tokens)] + bs[1..])[1..] == bs[1..];
    } else {
      AddToCounts(bs[1..], at, tokens, k);
      assert ([bs[0]] + AddTo(bs[1..], at, tokens))[1..] == AddTo(bs[1..], at, tokens);
    }
  }

  /** Increasing buckets within a window are no more than the window is wide. */
  lemma {:induction false} WindowFits(bs: seq<Bucket>, first: nat, width: nat)
    requires Increasing(bs) && forall i :: 0 <= i < |bs| ==> first <= bs[i].at < first + width
    ensures |bs| <= width
    decreases |bs|
  {
    if bs != [] {
      var n := |bs| - 1;
      assert forall i :: 0 <= i < n ==> bs[i].at < bs[n].at;
      WindowFits(bs[..n], first, bs[n].at - first);
    }
  }

  // ---------------------------------------------------------------- recording a sample

  function Prune(h: map<Key, seq<Bucket>>, first: nat): (r: map<Key, seq<Bucket>>)
    ensures r.Keys <= h.Keys
  {
    map s | s in h && DropBefore(h[s], first) != [] :: DropBefore(h[s], first)
  }

  function Due(h: History, nowBucket: nat): bool {
    h.lastPruned.None?
    || (if nowBucket >= h.lastPruned.value then nowBucket - h.lastPruned.value else 0)
       >= SESSION_OUTPUT_PRUNE_INTERVAL_SECS / SESSION_TOKEN_BUCKET_SECS
  }

  function Pruned(h: History, nowBucket: nat): History {
    if Due(h, nowBucket) then History(Prune(h.buckets, FirstBucket(nowBucket)), Some(nowBucket)) else h
  }

  function Target(sample: Sample): nat {
    var bucket, now := BucketOf(sample.stamp), BucketOf(sample.now);
    if bucket < now then bucket else now
  }

  predicate InWindow(sample: Sample) {
    sample.tokens > 0 && Target(sample) >= FirstBucket(BucketOf(sample.now))
  }

  predicate Full(h: History, session: Key) {
    session !in h.buckets && |h.buckets| >= SESSION_OUTPUT_MAX_SESSIONS
  }

  function LastAt(bs: seq<Bucket>): int {
    if bs == [] then -1 else bs[|bs| - 1].at
  }

  predicate Unlisted(h: History, visible: set<Key>, s: Key) {
    s in h.buckets && s !in visible
  }

  /** A session that may be evicted: not shown, and none not shown was updated longer ago. None when all are shown. */
  ghost predicate Evictable(h: History, visible: set<Key>, victim: Option<Key>) {
    match victim
    case None => forall s :: s in h.buckets ==> s in visible
    case Some(v) =>
      Unlisted(h, visible, v) && forall s :: Unlisted(h, visible, s) ==> LastAt(h.buckets[v]) <= LastAt(h.buckets[s])
  }

  function Added(h: History, sample: Sample): History {
    var before := if sample.session in h.buckets then h.buckets[sample.session] else [];
    var kept := DropBefore(before, FirstBucket(BucketOf(sample.now)));
    h.(buckets := h.buckets[sample.session := AddTo(kept, Target(sample), sample.tokens)])
  }

  function Without(h: History, victim: Key): History {
    h.(buckets := h.buckets - {victim})
  }

  /** Whether the sample ends up in the history: it is in the window and there is or can be made room for it. */
  predicate Accepted(h: History, sample: Sample, victim: Option<Key>) {
    InWindow(sample) && (Full(Pruned(h, BucketOf(sample.now)), sample.session) ==> victim.Some?)
  }

  function Recorded(h: History, sample: Sample, victim: Option<Key>): History {
    var pruned := Pruned(h, BucketOf(sample.now));
    if !Accepted(h, sample, victim) then pruned
    else if Full(pruned, sample.session) then Added(Without(pruned, victim.value), sample)
    else Added(pruned, sample)
  }

  /** The victim is a proper one if the history is full. */
  ghost predicate Proper(h: History, sample: Sample, visible: set<Key>, victim: Option<Key>) {
    var pruned := Pruned(h, BucketOf(sample.now));
    InWindow(sample) && Full(pruned, sample.session) ==> Evictable(pruned, visible + {sample.session}, victim)
  }

  // ---------------------------------------------------------------- the samples behind the history

  datatype Entry = Entry(at: nat, tokens: nat)

  type Log = map<Key, seq<Entry>>

  /** Accepted samples by session, since the session was last evicted. */
  function Logged(log: Log, h: History, sample: Sample, victim: Option<Key>): Log {
    if !Accepted(h, sample, victim) then log
    else
      var kept := if Full(Pruned(h, BucketOf(sample.now)), sample.session) then log - {victim.value} else log;
      Noted(kept, sample.session, Entry(Target(sample), sample.tokens))
  }

  function Noted(log: Log, session: Key, entry: Entry): Log {
    log[session := (if session in log then log[session] else []) + [entry]]
  }

  function SumAt(entries: seq<Entry>, k: nat): nat {
    if entries == [] then 0
    else
      var last := entries[|entries| - 1];
      SumAt(entries[..|entries| - 1], k) + if last.at == k then last.tokens else 0
  }

  function LogAt(log: Log, s: Key, k: nat): nat {
    if s in log then SumAt(log[s], k) else 0
  }

  function StoredAt(h: History, s: Key, k: nat): nat {
    if s in h.buckets then TokensIn(h.buckets[s], k) else 0
  }

  /** A stored vector: not empty, strictly increasing, within one window, nothing later than the clock. */
  ghost predicate Vector(bs: seq<Bucket>, clock: nat) {
    && bs != [] && Increasing(bs)
    && bs[|bs| - 1].at <= clock && bs[|bs| - 1].at - bs[0].at < WINDOW
  }

  /** Bounded, and in the current window equal to the sums of the accepted samples. */
  ghost predicate Faithful(h: History, log: Log, clock: nat) {
    && |h.buckets| <= SESSION_OUTPUT_MAX_SESSIONS
    && (forall s :: s in h.buckets ==> Vector(h.buckets[s], clock))
    && (forall s, k :: k >= FirstBucket(clock) ==> StoredAt(h, s, k) == LogAt(log, s, k))
  }

  lemma VectorDropped(bs: seq<Bucket>, clock: nat, first: nat)
    requires Vector(bs, clock)
    ensures DropBefore(bs, first) == [] || Vector(DropBefore(bs, first), clock)
  {
    hide DropBefore, Vector;
    DropIsSuffix(bs, first);
    SuffixVector(bs, clock, |bs| - |DropBefore(bs, first)|);
  }

  lemma SuffixVector(bs: seq<Bucket>, clock: nat, d: nat)
    requires Vector(bs, clock) && d <= |bs|
    ensures d < |bs| ==> Vector(bs[d..], clock)
  {
    if d < |bs| {
      assert bs[d..][0] == bs[d] && bs[d..][|bs| - d - 1] == bs[|bs| - 1];
      assert d > 0 ==> bs[0].at < bs[d].at;
    }
  }

  /** Everything lies between the ends. */
  lemma VectorRange(bs: seq<Bucket>, clock: nat)
    requires Vector(bs, clock)
    ensures Increasing(bs) && forall i :: 0 <= i < |bs| ==> bs[0].at <= bs[i].at <= clock
  {
    assert forall i :: 0 <= i < |bs| - 1 ==> bs[i].at < bs[|bs| - 1].at;
  }

  lemma VectorLater(bs: seq<Bucket>, clock: nat, later: nat)
    requires Vector(bs, clock) && clock <= later
    ensures Vector(bs, later)
  {}

  lemma FewerSessions(a: map<Key, seq<Bucket>>, b: map<Key, seq<Bucket>>)
    requires a.Keys <= b.Keys
    ensures |a| <= |b|
  {
    Metrics.Subset(a.Keys, b.Keys);
    assert |a.Keys| == |a| && |b.Keys| == |b|;
  }

  lemma PrunedFaithful(h: History, log: Log, clock: nat, nowBucket: nat)
    requires Faithful(h, log, clock) && clock <= nowBucket
    ensures Faithful(Pruned(h, nowBucket), log, nowBucket)
  {
    hide Vector, TokensIn, SumAt;
    var r, first := Pruned(h, nowBucket), FirstBucket(nowBucket);
    FewerSessions(r.buckets, h.buckets);
    forall s | s in r.buckets ensures Vector(r.buckets[s], nowBucket) {
      VectorDropped(h.buckets[s], clock, first);
      VectorLater(r.buckets[s], clock, nowBucket);
    }
    forall s, k: nat | k >= first ensures StoredAt(r, s, k) == LogAt(log, s, k) {
      assert StoredAt(h, s, k) == LogAt(log, s, k);
      if s in h.buckets {
        DropKeepsWindow(h.buckets[s], first, k);
        EmptyHasNone(k);
      }
    }
  }

  lemma EmptyHasNone(k: nat)
    ensures TokensIn([], k) == 0 && SumAt([], k) == 0
  {}

  lemma AddedVector(before: seq<Bucket>, clock: nat, at: nat, tokens: nat)
    requires before == [] || Vector(before, clock)
    requires FirstBucket(clock) <= at <= clock
    ensures Vector(AddTo(DropBefore(before, FirstBucket(clock)), at, tokens), clock)
  {
    hide DropBefore, Vector, AddTo;
    var first := FirstBucket(clock);
    var dropped := DropBefore(before, first);
    if before != [] {
      VectorDropped(before, clock, first);
    }
    if dropped != [] {
      VectorRange(dropped, clock);
    }
    AddToIncreasing(dropped, at, tokens);
    VectorOf(AddTo(dropped, at, tokens), clock);
  }

  lemma VectorOf(bs: seq<Bucket>, clock: nat)
    requires bs != [] && Increasing(bs) && forall i :: 0 <= i < |bs| ==> FirstBucket(clock) <= bs[i].at <= clock
    ensures Vector(bs, clock)
  {}

  lemma SumAppended(entries: seq<Entry>, entry: Entry, k: nat)
    ensures SumAt(entries + [entry], k) == SumAt(entries, k) + if entry.at == k then entry.tokens else 0
  {
    assert (entries + [entry])[..|entries|] == entries;
  }

  lemma NotedAt(log: Log, session: Key, entry: Entry, s: Key, k: nat)
    ensures LogAt(Noted(log, session, entry), s, k)
      == LogAt(log, s, k) + if s == session && entry.at == k then entry.tokens else 0
  {
    hide SumAt;
    EmptyHasNone(k);
    if s == session {
      SumAppended(if session in log then log[session] else [], entry, k);
    }
  }

  lemma AddedAt(h: History, clock: nat, sample: Sample, s: Key, k: nat)
    requires sample.session in h.buckets ==> Vector(h.buckets[sample.session], clock)
    requires k >= FirstBucket(BucketOf(sample.now))
    ensures StoredAt(Added(h, sample), s, k)
      == StoredAt(h, s, k) + if s == sample.session && Target(sample) == k then sample.tokens else 0
  {
    hide Vector, TokensIn, AddTo, BucketOf, DropBefore, FirstBucket, Target;
    if s == sample.session {
      var before, first := if s in h.buckets then h.buckets[s] else [], FirstBucket(BucketOf(sample.now));
      VectorIncreasing(before, clock, first);
      AddToCounts(DropBefore(before, first), Target(sample), sample.tokens, k);
      DropKeepsWindow(before, first, k);
      EmptyHasNone(k);
    }
  }

  lemma AddedFaithful(h: History, log: Log, sample: Sample)
    requires Faithful(h, log, BucketOf(sample.now)) && InWindow(sample)
    requires sample.session in h.buckets || |h.buckets| < SESSION_OUTPUT_MAX_SESSIONS
    ensures Faithful(Added(h, sample), Noted(log, sample.session, Entry(Target(sample), sample.tokens)),
                     BucketOf(sample.now))
  {
    hide Vector, StoredAt, LogAt, AddTo, BucketOf, DropBefore, FirstBucket, Noted;
    var clock, s0, entry := BucketOf(sample.now), sample.session, Entry(Target(sample), sample.tokens);
    AddedVector(if s0 in h.buckets then h.buckets[s0] else [], clock, Target(sample), sample.tokens);
    forall s, k: nat | k >= FirstBucket(clock)
      ensures StoredAt(Added(h, sample), s, k) == LogAt(Noted(log, s0, entry), s, k)
    {
      AddedAt(h, clock, sample, s, k);
      NotedAt(log, s0, entry, s, k);
    }
  }

  lemma VectorIncreasing(bs: seq<Bucket>, clock: nat, first: nat)
    requires bs == [] || Vector(bs, clock)
    ensures Increasing(DropBefore(bs, first))
  {
    hide DropBefore;
    if bs != [] {
      VectorDropped(bs, clock, first);
    }
  }

  lemma WithoutFaithful(h: History, log: Log, clock: nat, victim: Key)
    requires Faithful(h, log, clock) && victim in h.buckets
    ensures Faithful(Without(h, victim), log - {victim}, clock)
    ensures |Without(h, victim).buckets| < |h.buckets|
  {
    hide Vector, TokensIn, SumAt;
    var r := Without(h, victim);
    FewerSessions(r.buckets, h.buckets);
    assert r.buckets.Keys == h.buckets.Keys - {victim};
    assert |r.buckets.Keys| == |r.buckets| && |h.buckets.Keys| == |h.buckets|;
    forall s, k: nat | k >= FirstBucket(clock) ensures StoredAt(r, s, k) == LogAt(log - {victim}, s, k) {
      assert StoredAt(h, s, k) == LogAt(log, s, k);
    }
  }

  /** Recording, by a clock that does not go back, keeps the history bounded and faithful to its samples. */
  lemma RecordedFaithful(h: History, log: Log, clock: nat, sample: Sample, visible: set<Key>, victim: Option<Key>)
    requires Faithful(h, log, clock) && clock <= BucketOf(sample.now) && Proper(h, sample, visible, victim)
    ensures Faithful(Recorded(h, sample, victim), Logged(log, h, sample, victim), BucketOf(sample.now))
  {
    hide Faithful, Pruned, InWindow, BucketOf, Target;
    var now := BucketOf(sample.now);
    var pruned := Pruned(h, now);
    PrunedFaithful(h, log, clock, now);
    FaithfulBounded(pruned, log, now);
    if Accepted(h, sample, victim) {
      if Full(pruned, sample.session) {
        WithoutFaithful(pruned, log, now, victim.value);
        AddedFaithful(Without(pruned, victim.value), log - {victim.value}, sample);
      } else {
        AddedFaithful(pruned, log, sample);
      }
    }
  }

  lemma FaithfulBounded(h: History, log: Log, clock: nat)
    requires Faithful(h, log, clock)
    ensures |h.buckets| <= SESSION_OUTPUT_MAX_SESSIONS
  {}

  // ---------------------------------------------------------------- every run

  datatype Call = Call(sample: Sample, visible: set<Key>, victim: Option<Key>)

  datatype Traced = Traced(history: History, log: Log, clock: nat)

  const BLANK: Traced := Traced(History(map[], None), map[], 0)

  function Next(t: Traced, call: Call): Traced {
    Traced(Recorded(t.history, call.sample, call.victim),
           Logged(t.log, t.history, call.sample, call.victim),
           BucketOf(call.sample.now))
  }

  /** Calls by a clock that does not go back, each with a proper victim where one is needed. */
  ghost predicate Orderly(t: Traced, calls: seq<Call>)
    decreases |calls|
  {
    calls == [] ||
      (t.clock <= BucketOf(calls[0].sample.now) && Proper(t.history, calls[0].sample, calls[0].visible, calls[0].victim)
       && Orderly(Next(t, calls[0]), calls[1..]))
  }

  function After(t: Traced, calls: seq<Call>): Traced
    decreases |calls|
  {
    if calls == [] then t else After(Next(t, calls[0]), calls[1..])
  }

  lemma {:induction false} RunFaithful(t: Traced, calls: seq<Call>)
    requires Faithful(t.history, t.log, t.clock) && Orderly(t, calls)
    ensures var r := After(t, calls); Faithful(r.history, r.log, r.clock)
    decreases |calls|
  {
    hide Faithful, Recorded, Logged, Proper, BucketOf;
    if calls != [] {
      RecordedFaithful(t.history, t.log, t.clock, calls[0].sample, calls[0].visible, calls[0].victim);
      RunFaithful(Next(t, calls[0]), calls[1..]);
    }
  }

  /** In every run: at most 4096 sessions; every vector strictly increasing with at most 360 buckets; and in the current
      window every bucket of every session holds exactly the accepted samples since the session was last evicted. */
  lemma HistoryIsFaithful(calls: seq<Call>)
    requires Orderly(BLANK, calls)
    ensures var r := After(BLANK, calls);
      && |r.history.buckets| <= SESSION_OUTPUT_MAX_SESSIONS
      && (forall s :: s in r.history.buckets ==> Increasing(r.history.buckets[s]) && 0 < |r.history.buckets[s]| <= 360)
      && (forall s, k :: k >= FirstBucket(r.clock) ==> StoredAt(r.history, s, k) == LogAt(r.log, s, k))
  {
    hide Orderly, After, TokensIn, SumAt;
    RunFaithful(BLANK, calls);
    var r := After(BLANK, calls);
    forall s | s in r.history.buckets ensures 0 < |r.history.buckets[s]| <= 360 {
      var bs := r.history.buckets[s];
      assert forall i :: 0 <= i < |bs| ==> bs[0].at <= bs[i].at <= bs[|bs| - 1].at;
      WindowFits(bs, bs[0].at, WINDOW);
    }
  }

  /** A session just updated holds nothing outside the window either. */
  lemma UpdatedIsExact(calls: seq<Call>, call: Call, k: nat)
    requires Orderly(BLANK, calls + [call]) && Accepted(After(BLANK, calls).history, call.sample, call.victim)
    ensures var r := After(BLANK, calls + [call]); var s := call.sample.session;
      && s in r.history.buckets
      && TokensIn(r.history.buckets[s], k) == if k >= FirstBucket(r.clock) then LogAt(r.log, s, k) else 0
  {
    hide Orderly, TokensIn, SumAt, AddTo, BucketOf, Accepted;
    HistoryIsFaithful(calls + [call]);
    AfterOneMore(BLANK, calls, call);
    var r, s := After(BLANK, calls + [call]), call.sample.session;
    assert StoredAt(r.history, s, k) == TokensIn(r.history.buckets[s], k);
    if k < FirstBucket(r.clock) {
      UpdatedStartsInWindow(After(BLANK, calls), call);
      var bs := r.history.buckets[s];
      assert forall i :: 0 <= i < |bs| ==> bs[0].at <= bs[i].at;
      NothingBelow(bs, k);
    }
  }

  lemma {:induction false} AfterOneMore(t: Traced, calls: seq<Call>, call: Call)
    ensures After(t, calls + [call]) == Next(After(t, calls), call)
    decreases |calls|
  {
    hide Next;
    if calls == [] {
      assert [call][1..] == [];
    } else {
      assert (calls + [call])[0] == calls[0] && (calls + [call])[1..] == calls[1..] + [call];
      AfterOneMore(Next(t, calls[0]), calls[1..], call);
    }
  }

  lemma {:induction false} AddToStarts(bs: seq<Bucket>, at: nat, tokens: nat, first: nat)
    requires at >= first && (bs != [] ==> bs[0].at >= first)
    ensures AddTo(bs, at, tokens) != [] && AddTo(bs, at, tokens)[0].at >= first
  {}

  lemma UpdatedStartsInWindow(t: Traced, call: Call)
    requires Accepted(t.history, call.sample, call.victim)
    ensures var r := Next(t, call); var s := call.sample.session;
      s in r.history.buckets && r.history.buckets[s] != [] && r.history.buckets[s][0].at >= FirstBucket(r.clock)
  {
    hide AddTo, Pruned, BucketOf;
    var sample := call.sample;
    var pruned := Pruned(t.history, BucketOf(sample.now));
    var base := if Full(pruned, sample.session) then Without(pruned, call.victim.value) else pruned;
    var before := if sample.session in base.buckets then base.buckets[sample.session] else [];
    AddToStarts(DropBefore(before, FirstBucket(BucketOf(sample.now))), Target(sample),
                sample.tokens, FirstBucket(BucketOf(sample.now)));
  }

  /** Eviction spares what is shown: a session in the active or recent rows keeps its buckets. */
  lemma ShownIsSpared(h: History, sample: Sample, visible: set<Key>, victim: Option<Key>, shown: Key)
    requires Proper(h, sample, visible, victim) && shown in visible && shown != sample.session
    ensures var pruned, r := Pruned(h, BucketOf(sample.now)), Recorded(h, sample, victim);
      shown in pruned.buckets ==> shown in r.buckets && r.buckets[shown] == pruned.buckets[shown]
  {
    hide Pruned, BucketOf, AddTo, DropBefore;
  }
}
