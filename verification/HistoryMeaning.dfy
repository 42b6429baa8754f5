/** What a chart of the last hour shows, read from the reported samples alone. */
module HistoryMeaning {
  import opened Text
  import opened OutputHistory
  import HistoryRuns
  import Monitoring
  import Metrics

  /** The ten seconds a time falls into, counted from the epoch. */
  function TenSeconds(time: nat): nat {
    time / 10_000_000_000
  }

  /** When the tokens count: as stamped, but never later than they are reported. */
  function CountsAt(sample: Sample): nat {
    TenSeconds(if sample.stamp < sample.now then sample.stamp else sample.now)
  }

  /** All tokens reported for a session in one stretch of ten seconds. */
  function TokensAt(samples: seq<Sample>, s: Key, k: nat): nat {
    if samples == [] then 0
    else
      var last := samples[|samples| - 1];
      TokensAt(samples[..|samples| - 1], s, k) +
      if last.session == s && CountsAt(last) == k then last.tokens else 0
  }

  function SessionsIn(samples: seq<Sample>): set<Key> {
    set sample | sample in samples :: sample.session
  }

  lemma SameTime(time: nat)
    ensures BucketOf(time) == TenSeconds(time)
  {}

  lemma SameTarget(sample: Sample)
    ensures Target(sample) == CountsAt(sample)
    ensures InWindow(sample) <==> sample.tokens > 0 && CountsAt(sample) + 359 >= TenSeconds(sample.now)
  {
    SameTime(sample.stamp);
    SameTime(sample.now);
  }

  // ---------------------------------------------------------------- room for everybody

  ghost predicate Room(h: History, samples: seq<Sample>) {
    h.buckets.Keys <= SessionsIn(samples)
  }

  /** With few sessions none is ever refused or evicted. */
  lemma NeverFull(h: History, samples: seq<Sample>, sample: Sample, all: set<Key>)
    requires Room(h, samples) && SessionsIn(samples) + {sample.session} <= all && |all| <= 4096
    ensures !Full(Pruned(h, BucketOf(sample.now)), sample.session)
  {
    hide BucketOf, FirstBucket, DropBefore;
    var pruned := Pruned(h, BucketOf(sample.now));
    if sample.session !in pruned.buckets {
      var keys := pruned.buckets.Keys;
      Metrics.Subset(keys + {sample.session}, all);
      assert |keys + {sample.session}| == |keys| + 1;
      assert |keys| == |pruned.buckets|;
    }
  }

  lemma StillRoom(h: History, samples: seq<Sample>, sample: Sample, victim: Option<Key>)
    requires Room(h, samples) && !Full(Pruned(h, BucketOf(sample.now)), sample.session)
    ensures Room(Recorded(h, sample, victim), samples + [sample])
  {
    hide BucketOf, FirstBucket, DropBefore, AddTo, InWindow, Due;
    assert sample in samples + [sample];
    forall s | s in SessionsIn(samples) ensures s in SessionsIn(samples + [sample]) {
      var one :| one in samples && one.session == s;
      assert one in samples + [sample];
    }
  }

  // ---------------------------------------------------------------- the log is the samples

  lemma OneMoreSample(samples: seq<Sample>, sample: Sample, s: Key, k: nat)
    ensures TokensAt(samples + [sample], s, k)
         == TokensAt(samples, s, k) + if sample.session == s && CountsAt(sample) == k then sample.tokens else 0
  {
    assert (samples + [sample])[..|samples|] == samples;
  }

  ghost predicate LogIsSamples(log: Log, samples: seq<Sample>, clock: nat) {
    forall s, k: nat :: k + 359 >= clock ==> LogAt(log, s, k) == TokensAt(samples, s, k)
  }

  lemma LoggedIsSamples(log: Log, h: History, samples: seq<Sample>, clock: nat, sample: Sample, victim: Option<Key>)
    requires LogIsSamples(log, samples, clock) && clock <= BucketOf(sample.now)
    requires !Full(Pruned(h, BucketOf(sample.now)), sample.session)
    ensures LogIsSamples(Logged(log, h, sample, victim), samples + [sample], BucketOf(sample.now))
  {
    hide BucketOf, FirstBucket, DropBefore, SumAt, Pruned, Full, Noted, TokensAt, InWindow, Target;
    SameTime(sample.now);
    SameTarget(sample);
    var after, entry := Logged(log, h, sample, victim), Entry(Target(sample), sample.tokens);
    forall s, k: nat | k + 359 >= BucketOf(sample.now)
      ensures LogAt(after, s, k) == TokensAt(samples + [sample], s, k)
    {
      OneMoreSample(samples, sample, s, k);
      assert LogAt(log, s, k) == TokensAt(samples, s, k);
      NotedAt(log, sample.session, entry, s, k);
    }
  }

  // ---------------------------------------------------------------- every run

  lemma {:induction false} RunIsSamples(calls: seq<Call>, all: set<Key>)
    requires Orderly(BLANK, calls) && SessionsIn(HistoryRuns.SamplesIn(calls)) <= all && |all| <= 4096
    ensures var r, samples := After(BLANK, calls), HistoryRuns.SamplesIn(calls);
      Room(r.history, samples) && LogIsSamples(r.log, samples, r.clock)
    decreases |calls|
  {
    hide Next, Proper, BucketOf, Orderly, Room, Recorded, Logged, Full, Pruned, LogIsSamples, SessionsIn;
    if calls == [] {
      NothingYet();
    } else {
      var n := |calls| - 1;
      var before, call := calls[..n], calls[n];
      var samples := HistoryRuns.SamplesIn(before);
      assert calls == before + [call];
      SessionsGrow(samples, call.sample);
      OrderlyHere(BLANK, before, call);
      RunIsSamples(before, all);
      AfterOneMore(BLANK, before, call);
      var t := After(BLANK, before);
      NeverFull(t.history, samples, call.sample, all);
      StillRoom(t.history, samples, call.sample, call.victim);
      LoggedIsSamples(t.log, t.history, samples, t.clock, call.sample, call.victim);
      NextIs(t, call);
    }
  }

  lemma NothingYet()
    ensures Room(BLANK.history, []) && LogIsSamples(BLANK.log, [], 0)
  {}

  lemma NextIs(t: Traced, call: Call)
    ensures Next(t, call) == Traced(Recorded(t.history, call.sample, call.victim),
                                    Logged(t.log, t.history, call.sample, call.victim), BucketOf(call.sample.now))
  {}

  lemma SessionsGrow(samples: seq<Sample>, sample: Sample)
    ensures SessionsIn(samples + [sample]) == SessionsIn(samples) + {sample.session}
  {
    var more := samples + [sample];
    assert more[|samples|] == sample;
    assert forall one :: one in more <==> one in samples || one == sample;
  }

  /** As long as no more than 4096 sessions have reported, whatever the victims offered: in the last hour each session
      holds, for every ten seconds, exactly the tokens reported for it. A sample stamped in the future counts when it
      is reported; one that comes an hour late or more is in no window. */
  lemma ChartIsExact(calls: seq<Call>, s: Key, k: nat)
    requires Orderly(BLANK, calls) && calls != [] && |SessionsIn(HistoryRuns.SamplesIn(calls))| <= 4096
    requires k + 359 >= TenSeconds(calls[|calls| - 1].sample.now)
    ensures StoredAt(After(BLANK, calls).history, s, k) == TokensAt(HistoryRuns.SamplesIn(calls), s, k)
  {
    hide Next, Orderly, Room, LogAt, StoredAt, TokensAt, SessionsIn, Increasing;
    RunIsSamples(calls, SessionsIn(HistoryRuns.SamplesIn(calls)));
    HistoryIsFaithful(calls);
    var n := |calls| - 1;
    assert calls == calls[..n] + [calls[n]];
    AfterOneMore(BLANK, calls[..n], calls[n]);
    NextIs(After(BLANK, calls[..n]), calls[n]);
    SameTime(calls[n].sample.now);
  }

  /** The same of a monitor, whatever events it applies. */
  lemma MonitorChartIsExact(limit: nat, events: seq<Monitoring.Timestamped>, pasts: seq<History>, s: Key, k: nat)
    requires HistoryRuns.Histories(limit, events, pasts) && HistoryRuns.Forward(events) && events != []
    requires var samples := HistoryRuns.Samples(limit, events, |events|);
      |SessionsIn(samples)| <= 4096
    requires k + 359 >= TenSeconds(events[|events| - 1].now.wall)
    ensures StoredAt(pasts[|events|], s, k) == TokensAt(HistoryRuns.Samples(limit, events, |events|), s, k)
  {
    hide HistoryRuns.Samples, HistoryRuns.Histories, Orderly, Room, LogAt, StoredAt, TokensAt, SessionsIn, Increasing,
         BucketOf, Next;
    var calls := HistoryRuns.EventsRecordOrderly(limit, events, pasts, |events|);
    HistoryRuns.HistoriesLength(limit, events, pasts);
    SameTime(events[|events| - 1].now.wall);
    RunIsSamples(calls, SessionsIn(HistoryRuns.SamplesIn(calls)));
    HistoryIsFaithful(calls);
  }

  // ---------------------------------------------------------------- nothing stays for long

  /** Everything stored was in the window at the last pruning, which is less than a minute ago. */
  ghost predicate Swept(h: History, clock: nat) {
    match h.lastPruned
    case None => h.buckets == map[]
    case Some(p) =>
      p <= clock < p + 6 && forall s, i :: s in h.buckets && 0 <= i < |h.buckets[s]| ==> h.buckets[s][i].at + 359 >= p
  }

  lemma {:induction false} DropKeepsLater(bs: seq<Bucket>, first: nat)
    requires Increasing(bs)
    ensures forall i :: 0 <= i < |DropBefore(bs, first)| ==>
      DropBefore(bs, first)[i].at >= first && DropBefore(bs, first)[i] in bs
  {
    if bs != [] && bs[0].at < first {
      DropKeepsLater(bs[1..], first);
    } else if bs != [] {
      assert forall i :: 0 <= i < |bs| ==> bs[0].at <= bs[i].at;
    }
  }

  lemma PrunedSweeps(h: History, log: Log, clock: nat, now: nat)
    requires Faithful(h, log, clock) && clock <= now && Swept(h, clock)
    ensures Swept(Pruned(h, now), now) && Pruned(h, now).lastPruned.Some?
  {
    hide DropBefore, StoredAt, LogAt, Increasing;
    if Due(h, now) {
      var r := Pruned(h, now);
      forall s | s in r.buckets
        ensures forall i :: 0 <= i < |r.buckets[s]| ==> r.buckets[s][i].at + 359 >= now
      {
        VectorRange(h.buckets[s], clock);
        DropKeepsLater(h.buckets[s], FirstBucket(now));
      }
    }
  }

  lemma AddedSweeps(h: History, log: Log, sample: Sample)
    requires Faithful(h, log, BucketOf(sample.now)) && InWindow(sample)
    requires Swept(h, BucketOf(sample.now)) && h.lastPruned.Some?
    ensures Swept(Added(h, sample), BucketOf(sample.now))
  {
    hide DropBefore, StoredAt, LogAt, Increasing, AddTo, BucketOf;
    var before := if sample.session in h.buckets then h.buckets[sample.session] else [];
    var now := BucketOf(sample.now);
    if before != [] {
      VectorRange(before, now);
    } else {
      NoneIncrease();
    }
    DropKeepsLater(before, FirstBucket(now));
    var kept := DropBefore(before, FirstBucket(now));
    VectorIncreasing(before, now, FirstBucket(now));
    AddToIncreasing(kept, Target(sample), sample.tokens);
  }

  lemma NoneIncrease()
    ensures Increasing([])
  {}

  lemma RecordedSweeps(h: History, log: Log, clock: nat, sample: Sample, visible: set<Key>, victim: Option<Key>)
    requires Faithful(h, log, clock) && clock <= BucketOf(sample.now) && Proper(h, sample, visible, victim)
    requires Swept(h, clock)
    ensures Swept(Recorded(h, sample, victim), BucketOf(sample.now))
  {
    hide Faithful, Pruned, InWindow, BucketOf, Target, Added;
    var now := BucketOf(sample.now);
    var pruned := Pruned(h, now);
    PrunedFaithful(h, log, clock, now);
    PrunedSweeps(h, log, clock, now);
    if Accepted(h, sample, victim) {
      if Full(pruned, sample.session) {
        WithoutFaithful(pruned, log, now, victim.value);
        WithoutSweeps(pruned, now, victim.value);
        AddedSweeps(Without(pruned, victim.value), log - {victim.value}, sample);
      } else {
        AddedSweeps(pruned, log, sample);
      }
    }
  }

  lemma WithoutSweeps(h: History, clock: nat, victim: Key)
    requires Swept(h, clock) && h.lastPruned.Some?
    ensures Swept(Without(h, victim), clock)
  {}

  lemma {:induction false} RunSweeps(t: Traced, calls: seq<Call>)
    requires Faithful(t.history, t.log, t.clock) && Orderly(t, calls) && Swept(t.history, t.clock)
    ensures var r := After(t, calls); Swept(r.history, r.clock)
    decreases |calls|
  {
    hide Faithful, Recorded, Logged, Proper, BucketOf, Swept;
    if calls != [] {
      var sample := calls[0].sample;
      RecordedFaithful(t.history, t.log, t.clock, sample, calls[0].visible, calls[0].victim);
      RecordedSweeps(t.history, t.log, t.clock, sample, calls[0].visible, calls[0].victim);
      RunSweeps(Next(t, calls[0]), calls[1..]);
    }
  }

  /** Whatever is recorded for whom: no session keeps anything that is an hour and a minute old. */
  lemma NothingStale(calls: seq<Call>, s: Key, i: nat)
    requires Orderly(BLANK, calls) && calls != []
    requires s in After(BLANK, calls).history.buckets && i < |After(BLANK, calls).history.buckets[s]|
    ensures After(BLANK, calls).history.buckets[s][i].at + 365 > TenSeconds(calls[|calls| - 1].sample.now)
  {
    hide Orderly, After, TokensIn, SumAt, Next;
    RunSweeps(BLANK, calls);
    var n := |calls| - 1;
    assert calls == calls[..n] + [calls[n]];
    AfterOneMore(BLANK, calls[..n], calls[n]);
    NextIs(After(BLANK, calls[..n]), calls[n]);
    SameTime(calls[n].sample.now);
  }

  // ---------------------------------------------------------------- who is evicted

  predicate AllPositive(bs: seq<Bucket>) {
    forall i :: 0 <= i < |bs| ==> bs[i].tokens > 0
  }

  ghost predicate Positive(h: History) {
    forall s :: s in h.buckets ==> AllPositive(h.buckets[s])
  }

  lemma {:induction false} DropKeepsPositive(bs: seq<Bucket>, first: nat)
    requires AllPositive(bs)
    ensures AllPositive(DropBefore(bs, first))
  {
    if bs != [] && bs[0].at < first {
      DropKeepsPositive(bs[1..], first);
    }
  }

  lemma {:induction false} AddToPositive(bs: seq<Bucket>, at: nat, tokens: nat)
    requires AllPositive(bs) && tokens > 0
    ensures AllPositive(AddTo(bs, at, tokens))
  {
    if bs != [] && bs[0].at < at {
      AddToPositive(bs[1..], at, tokens);
    }
  }

  lemma RecordedPositive(h: History, sample: Sample, victim: Option<Key>)
    requires Positive(h)
    ensures Positive(Pruned(h, BucketOf(sample.now))) && Positive(Recorded(h, sample, victim))
  {
    hide BucketOf, FirstBucket, DropBefore, AddTo, Due, AllPositive;
    var now := BucketOf(sample.now);
    var pruned := Pruned(h, now);
    forall s | s in h.buckets ensures AllPositive(DropBefore(h.buckets[s], FirstBucket(now))) {
      DropKeepsPositive(h.buckets[s], FirstBucket(now));
    }
    if Accepted(h, sample, victim) {
      var base := if Full(pruned, sample.session) then Without(pruned, victim.value) else pruned;
      var before := if sample.session in base.buckets then base.buckets[sample.session] else [];
      NonePositive();
      DropKeepsPositive(before, FirstBucket(now));
      AddToPositive(DropBefore(before, FirstBucket(now)), Target(sample), sample.tokens);
    }
  }

  lemma NonePositive()
    ensures AllPositive([])
  {}

  lemma {:induction false} RunPositive(t: Traced, calls: seq<Call>)
    requires Positive(t.history)
    ensures Positive(After(t, calls).history)
    decreases |calls|
  {
    hide Recorded, Logged, BucketOf, Positive, Pruned;
    if calls != [] {
      RecordedPositive(t.history, calls[0].sample, calls[0].victim);
      RunPositive(Next(t, calls[0]), calls[1..]);
    }
  }

  /** Nothing is stored for the session from a stretch of ten seconds on. */
  ghost predicate QuietSince(h: History, s: Key, k: nat) {
    forall j: nat :: j >= k ==> StoredAt(h, s, j) == 0
  }

  lemma {:induction false} StoredAtLast(bs: seq<Bucket>)
    requires bs != [] && AllPositive(bs)
    ensures TokensIn(bs, bs[|bs| - 1].at) > 0
  {
    if |bs| > 1 {
      StoredAtLast(bs[1..]);
    }
  }

  lemma QuietIsBeyondLast(h: History, s: Key, clock: nat, k: nat)
    requires s in h.buckets && Vector(h.buckets[s], clock) && AllPositive(h.buckets[s])
    ensures QuietSince(h, s, k) <==> LastAt(h.buckets[s]) < k
  {
    hide TokensIn, AllPositive;
    var bs := h.buckets[s];
    StoredAtLast(bs);
    if LastAt(bs) < k {
      assert forall i :: 0 <= i < |bs| ==> bs[i].at <= bs[|bs| - 1].at;
      forall j: nat | j >= k ensures StoredAt(h, s, j) == 0 {
        NothingBelow(bs, j);
      }
    } else {
      assert StoredAt(h, s, bs[|bs| - 1].at) > 0;
    }
  }

  /** The session evicted is not shown, goes only because 4096 others are kept, and has been quiet at least as long as
      any other that is not shown. */
  lemma EvictsTheQuietest(calls: seq<Call>, call: Call, gone: Key, s: Key, k: nat)
    requires Orderly(BLANK, calls + [call])
    requires var pruned := Pruned(After(BLANK, calls).history, BucketOf(call.sample.now));
      && gone in pruned.buckets && gone !in After(BLANK, calls + [call]).history.buckets
      && s in pruned.buckets && s !in call.visible && s != call.sample.session
    ensures gone !in call.visible && gone != call.sample.session
    ensures var pruned := Pruned(After(BLANK, calls).history, BucketOf(call.sample.now));
      |pruned.buckets| == 4096 && (QuietSince(pruned, s, k) ==> QuietSince(pruned, gone, k))
  {
    hide Orderly, After, TokensIn, SumAt, Next, BucketOf, Pruned, StoredAt, Vector, AllPositive, LastAt, LogAt, AddTo,
         DropBefore, QuietSince, InWindow, FirstBucket;
    AfterOneMore(BLANK, calls, call);
    var t := After(BLANK, calls);
    NextIs(t, call);
    OrderlyHere(BLANK, calls, call);
    StartsFaithful();
    RunFaithful(BLANK, calls);
    RunPositive(BLANK, calls);
    RecordedPositive(t.history, call.sample, call.victim);
    var pruned := Pruned(t.history, BucketOf(call.sample.now));
    PrunedFaithful(t.history, t.log, t.clock, BucketOf(call.sample.now));
    QuietIsBeyondLast(pruned, s, BucketOf(call.sample.now), k);
    QuietIsBeyondLast(pruned, gone, BucketOf(call.sample.now), k);
  }

  lemma StartsFaithful()
    ensures Faithful(BLANK.history, BLANK.log, BLANK.clock) && Positive(BLANK.history)
  {}

  lemma {:induction false} OrderlyHere(t: Traced, calls: seq<Call>, call: Call)
    requires Orderly(t, calls + [call])
    ensures var end := After(t, calls);
      && Orderly(t, calls) && end.clock <= BucketOf(call.sample.now)
      && Proper(end.history, call.sample, call.visible, call.victim)
    decreases |calls|
  {
    hide Next, Proper, BucketOf;
    if calls != [] {
      assert (calls + [call])[0] == calls[0] && (calls + [call])[1..] == calls[1..] + [call];
      OrderlyHere(Next(t, calls[0]), calls[1..], call);
    }
  }

  // ---------------------------------------------------------------- what one recording does

  /** There is something to add, it is not an hour old, and there is room: the session is there, or fewer than 4096 are,
      or one of them is not shown. */
  ghost predicate Takes(pruned: History, call: Call) {
    var sample := call.sample;
    && sample.tokens > 0 && CountsAt(sample) + 359 >= TenSeconds(sample.now)
    && (sample.session in pruned.buckets || |pruned.buckets| < 4096
        || exists s :: s in pruned.buckets && s !in call.visible)
  }

  lemma AcceptedWhenTaken(pruned: History, h: History, call: Call)
    requires pruned == Pruned(h, BucketOf(call.sample.now)) && Proper(h, call.sample, call.visible, call.victim)
    ensures Accepted(h, call.sample, call.victim) <==> Takes(pruned, call)
    ensures Takes(pruned, call) && Full(pruned, call.sample.session) ==>
      call.victim.Some? && call.victim.value in pruned.buckets
  {
    hide BucketOf, FirstBucket, Pruned, InWindow, Target, CountsAt, LastAt;
    SameTarget(call.sample);
  }

  /** One recording in any run: a sample that is not taken changes nothing but what pruning takes; one that is adds
      exactly its tokens where it counts, drops another session only when 4096 others are kept, and leaves the rest. */
  lemma RecordedExactly(calls: seq<Call>, call: Call)
    requires Orderly(BLANK, calls + [call])
    ensures var sample := call.sample; var s0 := sample.session;
      var pruned := Pruned(After(BLANK, calls).history, BucketOf(sample.now));
      var after := After(BLANK, calls + [call]).history;
      && (!Takes(pruned, call) ==> after == pruned)
      && (Takes(pruned, call) ==>
            && s0 in after.buckets
            && (forall k: nat :: k + 359 >= TenSeconds(sample.now) ==>
                  StoredAt(after, s0, k)
                    == StoredAt(pruned, s0, k) + if k == CountsAt(sample) then sample.tokens else 0)
            && (forall s :: s in after.buckets && s != s0 ==>
                  s in pruned.buckets && after.buckets[s] == pruned.buckets[s])
            && (s0 in pruned.buckets || |pruned.buckets| < 4096 ==> pruned.buckets.Keys <= after.buckets.Keys))
  {
    hide Orderly, After, TokensIn, SumAt, Next, BucketOf, Pruned, StoredAt, Vector, LogAt, AddTo, DropBefore, InWindow,
         FirstBucket, Takes, Accepted, Target, CountsAt;
    AfterOneMore(BLANK, calls, call);
    var t := After(BLANK, calls);
    NextIs(t, call);
    OrderlyHere(BLANK, calls, call);
    StartsFaithful();
    RunFaithful(BLANK, calls);
    var sample, now := call.sample, BucketOf(call.sample.now);
    var pruned := Pruned(t.history, now);
    PrunedFaithful(t.history, t.log, t.clock, now);
    AcceptedWhenTaken(pruned, t.history, call);
    SameTarget(sample);
    SameTime(sample.now);
    if Takes(pruned, call) {
      var base := if Full(pruned, sample.session) then Without(pruned, call.victim.value) else pruned;
      forall k: nat | k + 359 >= TenSeconds(sample.now)
        ensures StoredAt(Added(base, sample), sample.session, k)
             == StoredAt(pruned, sample.session, k) + if k == CountsAt(sample) then sample.tokens else 0
      {
        InsideWindow(sample.now, k);
        AddedAt(base, now, sample, sample.session, k);
        SameElsewhere(pruned, base, sample.session, k);
      }
    }
  }

  lemma InsideWindow(now: nat, k: nat)
    requires k + 359 >= TenSeconds(now)
    ensures k >= FirstBucket(BucketOf(now))
  {
    SameTime(now);
  }

  lemma SameElsewhere(a: History, b: History, s: Key, k: nat)
    requires (s in a.buckets <==> s in b.buckets) && (s in a.buckets ==> a.buckets[s] == b.buckets[s])
    ensures StoredAt(a, s, k) == StoredAt(b, s, k)
  {}
}
