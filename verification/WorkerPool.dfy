/** The bounded ordered worker pool as a transition system over every interleaving of its workers. */
module WorkerPool {
  import opened Text

  /** Where a worker stands: about to take an index, running its task, about to send its result, or gone. */
  datatype Worker<R> = Ready | Running(index: nat) | Sending(index: nat, result: R) | Exited

  datatype Sent<R> = Sent(index: nat, result: R)

  /** The shared counter, the workers, the channel, and every index whose task was started, in order. */
  datatype Pool<R> = Pool(next: nat, workers: seq<Worker<R>>, channel: seq<Sent<R>>, started: seq<nat>)

  function WorkerCount(n: nat, maxWorkers: nat): nat {
    var ceiling := if maxWorkers < 1 then 1 else maxWorkers;
    if n < ceiling then n else ceiling
  }

  function Initial<R>(n: nat, maxWorkers: nat): Pool<R> {
    Pool(0, AllReady(WorkerCount(n, maxWorkers)), [], [])
  }

  function AllReady<R>(count: nat): seq<Worker<R>> {
    seq(count, _ => Ready)
  }

  /** One worker's next action. */
  function Act<T, R>(items: seq<T>, task: T -> R, s: Pool<R>, w: nat): Pool<R>
    requires w < |s.workers| && !s.workers[w].Exited?
    requires s.workers[w].Running? ==> s.workers[w].index < |items|
  {
    match s.workers[w]
    case Ready =>
      if s.next >= |items| then s.(next := s.next + 1, workers := s.workers[w := Exited])
      else s.(next := s.next + 1, workers := s.workers[w := Running(s.next)], started := s.started + [s.next])
    case Running(i) => s.(workers := s.workers[w := Sending(i, task(items[i]))])
    case Sending(i, r) => s.(workers := s.workers[w := Ready], channel := s.channel + [Sent(i, r)])
  }

  // ---------------------------------------------------------------- safety

  predicate Holds<R>(worker: Worker<R>, i: nat) {
    (worker.Running? || worker.Sending?) && worker.index == i
  }

  ghost predicate Held<R>(s: Pool<R>, i: nat) {
    exists w :: 0 <= w < |s.workers| && Holds(s.workers[w], i)
  }

  ghost predicate InChannel<R>(s: Pool<R>, i: nat) {
    exists k :: 0 <= k < |s.channel| && s.channel[k].index == i
  }

  /** No index is in two hands, twice in the channel, or in both places. */
  ghost predicate OnceEach<R>(s: Pool<R>) {
    && (forall v, w, i :: 0 <= v < w < |s.workers| && Holds(s.workers[v], i) ==> !Holds(s.workers[w], i))
    && (forall j, k :: 0 <= j < k < |s.channel| ==> s.channel[j].index != s.channel[k].index)
    && (forall i :: InChannel(s, i) ==> !Held(s, i))
  }

  /** Exactly the indexes 0, 1, 2, ... were started, each once; each started index is held or sent; and every result
      is its own item's. */
  ghost predicate Safe<T, R>(items: seq<T>, task: T -> R, s: Pool<R>) {
    && |s.started| == (if s.next < |items| then s.next else |items|)
    && (forall k :: 0 <= k < |s.started| ==> s.started[k] == k)
    && (forall i :: 0 <= i < |s.started| ==> Held(s, i) || InChannel(s, i))
    && OnceEach(s)
    && (forall w :: 0 <= w < |s.workers| ==>
          match s.workers[w]
          case Running(i) => i < |s.started|
          case Sending(i, r) => i < |s.started| && r == task(items[i])
          case Exited => s.next > |items|
          case Ready => true)
    && (forall k :: 0 <= k < |s.channel| ==>
          s.channel[k].index < |s.started| && s.channel[k].result == task(items[s.channel[k].index]))
  }

  /** A schedule names, step by step, the worker that acts; only workers that have not exited can. */
  predicate Runs<T, R>(items: seq<T>, task: T -> R, s: Pool<R>, schedule: seq<nat>)
    decreases |schedule|
  {
    schedule == [] ||
      (schedule[0] < |s.workers| && !s.workers[schedule[0]].Exited?
       && (s.workers[schedule[0]].Running? ==> s.workers[schedule[0]].index < |items|)
       && Runs(items, task, Act(items, task, s, schedule[0]), schedule[1..]))
  }

  function After<T, R>(items: seq<T>, task: T -> R, s: Pool<R>, schedule: seq<nat>): Pool<R>
    requires Runs(items, task, s, schedule)
    decreases |schedule|
  {
    if schedule == [] then s else After(items, task, Act(items, task, s, schedule[0]), schedule[1..])
  }

  lemma TakeIsSafe<T, R>(items: seq<T>, task: T -> R, s: Pool<R>, w: nat)
    requires Safe(items, task, s) && w < |s.workers| && s.workers[w].Ready?
    ensures Safe(items, task, Act(items, task, s, w))
  {
    var s1 := Act(items, task, s, w);
    forall i: nat | Held(s, i) ensures Held(s1, i) {
      var v :| 0 <= v < |s.workers| && Holds(s.workers[v], i);
      assert Holds(s1.workers[v], i);
    }
    forall i: nat | InChannel(s1, i) ensures InChannel(s, i) {
      var k :| 0 <= k < |s1.channel| && s1.channel[k].index == i;
      assert s.channel[k].index == i;
    }
    forall i: nat | InChannel(s, i) ensures InChannel(s1, i) && i < |s.started| {
      var k :| 0 <= k < |s.channel| && s.channel[k].index == i;
      assert s1.channel[k].index == i;
    }
    if s.next < |items| {
      assert Holds(s1.workers[w], s.next);
      assert Held(s1, s.next);
    }
    forall i: nat | InChannel(s1, i) ensures !Held(s1, i) {
      forall v | 0 <= v < |s1.workers| ensures !Holds(s1.workers[v], i) {
        assert v != w ==> !Holds(s.workers[v], i);
      }
    }
  }

  lemma ComputeIsSafe<T, R>(items: seq<T>, task: T -> R, s: Pool<R>, w: nat)
    requires Safe(items, task, s) && w < |s.workers| && s.workers[w].Running?
    ensures s.workers[w].index < |items|
    ensures Safe(items, task, Act(items, task, s, w))
  {
    var s1 := Act(items, task, s, w);
    forall v: nat, i: nat | 0 <= v < |s.workers| ensures Holds(s1.workers[v], i) == Holds(s.workers[v], i) {}
    forall i: nat ensures Held(s1, i) == Held(s, i) && InChannel(s1, i) == InChannel(s, i) {
      if Held(s, i) {
        var v :| 0 <= v < |s.workers| && Holds(s.workers[v], i);
        assert Holds(s1.workers[v], i);
      }
      if Held(s1, i) {
        var v :| 0 <= v < |s1.workers| && Holds(s1.workers[v], i);
        assert Holds(s.workers[v], i);
      }
    }
  }

  lemma SendIsSafe<T, R>(items: seq<T>, task: T -> R, s: Pool<R>, w: nat)
    requires Safe(items, task, s) && w < |s.workers| && s.workers[w].Sending?
    ensures Safe(items, task, Act(items, task, s, w))
  {
    var s1 := Act(items, task, s, w);
    var i0, n := s.workers[w].index, |s.channel|;
    assert Held(s, i0) by {
      assert Holds(s.workers[w], i0);
    }
    assert s1.channel[n].index == i0;
    forall i: nat ensures InChannel(s1, i) == (InChannel(s, i) || i == i0) && Held(s1, i) == (Held(s, i) && i != i0) {
      if InChannel(s, i) {
        var k :| 0 <= k < n && s.channel[k].index == i;
        assert s1.channel[k].index == i;
      }
      if InChannel(s1, i) && i != i0 {
        var k :| 0 <= k < n + 1 && s1.channel[k].index == i;
        assert s.channel[k].index == i;
      }
      if Held(s, i) && i != i0 {
        var v :| 0 <= v < |s.workers| && Holds(s.workers[v], i);
        assert Holds(s1.workers[v], i);
      }
      if Held(s1, i) {
        var v :| 0 <= v < |s1.workers| && Holds(s1.workers[v], i);
        assert Holds(s.workers[v], i) && Holds(s.workers[w], i0) && v != w;
      }
    }
    forall j, k | 0 <= j < k < |s1.channel| ensures s1.channel[j].index != s1.channel[k].index {
      if k == n {
        assert InChannel(s, s1.channel[j].index);
      }
    }
  }

  lemma ActIsSafe<T, R>(items: seq<T>, task: T -> R, s: Pool<R>, w: nat)
    requires Safe(items, task, s) && w < |s.workers| && !s.workers[w].Exited?
    ensures s.workers[w].Running? ==> s.workers[w].index < |items|
    ensures Safe(items, task, Act(items, task, s, w)) && |Act(items, task, s, w).workers| == |s.workers|
  {
    hide Safe;
    match s.workers[w] {
      case Ready => TakeIsSafe(items, task, s, w);
      case Running(_) => ComputeIsSafe(items, task, s, w);
      case Sending(_, _) => SendIsSafe(items, task, s, w);
    }
  }

  lemma {:induction false} RunIsSafe<T, R>(items: seq<T>, task: T -> R, s: Pool<R>, schedule: seq<nat>)
    requires Safe(items, task, s) && Runs(items, task, s, schedule)
    ensures var t := After(items, task, s, schedule);
      Safe(items, task, t) && |t.workers| == |s.workers|
    decreases |schedule|
  {
    hide Safe, Act;
    if schedule != [] {
      ActIsSafe(items, task, s, schedule[0]);
      RunIsSafe(items, task, Act(items, task, s, schedule[0]), schedule[1..]);
    }
  }

  lemma InitialIsSafe<T, R>(items: seq<T>, task: T -> R, maxWorkers: nat)
    ensures Safe(items, task, Initial(|items|, maxWorkers))
  {}

  // ---------------------------------------------------------------- how many at once

  predicate AllRunning<R>(workers: seq<Worker<R>>) {
    forall w :: 0 <= w < |workers| ==> workers[w] == Running(w)
  }

  /** Each worker from the j-th on takes its index. */
  lemma {:induction false} EachTakes<T, R>(items: seq<T>, task: T -> R, s: Pool<R>, j: nat) returns (schedule: seq<nat>)
    requires s.next == j <= |s.workers| <= |items|
    requires forall w :: 0 <= w < |s.workers| ==> s.workers[w] == if w < j then Running(w) else Ready
    ensures Runs(items, task, s, schedule)
    ensures var t := After(items, task, s, schedule); AllRunning(t.workers) && |t.workers| == |s.workers|
    decreases |s.workers| - j
  {
    schedule := [];
    if j < |s.workers| {
      var rest := EachTakes(items, task, Act(items, task, s, j), j + 1);
      schedule := [j] + rest;
      assert schedule[1..] == rest;
    }
  }

  /** Every schedule has at most as many tasks running as there are items and as the ceiling allows, a ceiling of 0
      counting as 1; and some schedule has that many running at once. */
  lemma CeilingIsMet<T, R>(items: seq<T>, task: T -> R, maxWorkers: nat) returns (schedule: seq<nat>)
    ensures var most := if |items| < maxWorkers then |items|
                        else if maxWorkers > 0 then maxWorkers else if items == [] then 0 else 1;
      && (forall any :: Runs(items, task, Initial(|items|, maxWorkers), any) ==>
            |After(items, task, Initial(|items|, maxWorkers), any).workers| <= most)
      && Runs(items, task, Initial(|items|, maxWorkers), schedule)
      && var t := After(items, task, Initial(|items|, maxWorkers), schedule);
         |t.workers| == most && AllRunning(t.workers)
  {
    hide Act, Safe, Runs, After;
    InitialIsSafe(items, task, maxWorkers);
    forall any | Runs(items, task, Initial(|items|, maxWorkers), any)
      ensures |After(items, task, Initial(|items|, maxWorkers), any).workers| == WorkerCount(|items|, maxWorkers)
    {
      RunIsSafe(items, task, Initial(|items|, maxWorkers), any);
    }
    schedule := EachTakes(items, task, Initial(|items|, maxWorkers), 0);
  }

  // ---------------------------------------------------------------- progress

  function Weight<R>(worker: Worker<R>): nat {
    match worker
    case Running(_) => 3
    case Sending(_, _) => 2
    case Ready => 1
    case Exited => 0
  }

  function Weights<R>(workers: seq<Worker<R>>): nat {
    if workers == [] then 0 else Weight(workers[0]) + Weights(workers[1..])
  }

  /** The number of actions left. */
  function Left<R>(n: nat, s: Pool<R>): nat {
    3 * (if s.next < n then n - s.next else 0) + Weights(s.workers)
  }

  lemma {:induction false} WeightsUpdate<R>(workers: seq<Worker<R>>, w: nat, worker: Worker<R>)
    requires w < |workers|
    ensures Weights(workers[w := worker]) == Weights(workers) - Weight(workers[w]) + Weight(worker)
  {
    if w > 0 {
      assert workers[w := worker][1..] == workers[1..][w - 1 := worker];
      WeightsUpdate(workers[1..], w - 1, worker);
    } else {
      assert workers[w := worker][1..] == workers[1..];
    }
  }

  lemma {:induction false} NoWeight<R>(workers: seq<Worker<R>>)
    ensures Weights(workers) == 0 <==> forall w :: 0 <= w < |workers| ==> workers[w].Exited?
  {
    if workers != [] {
      NoWeight(workers[1..]);
      assert forall w :: 0 < w < |workers| ==> workers[w] == workers[1..][w - 1];
    }
  }

  lemma {:induction false} InitialWeight<R>(count: nat)
    ensures Weights(AllReady<R>(count)) == count
  {
    if count > 0 {
      assert AllReady<R>(count)[1..] == AllReady<R>(count - 1);
      InitialWeight<R>(count - 1);
    }
  }

  lemma ActCounts<T, R>(items: seq<T>, task: T -> R, s: Pool<R>, w: nat)
    requires w < |s.workers| && !s.workers[w].Exited?
    requires s.workers[w].Running? ==> s.workers[w].index < |items|
    ensures Left(|items|, Act(items, task, s, w)) == Left(|items|, s) - 1
  {
    WeightsUpdate(s.workers, w, Act(items, task, s, w).workers[w]);
  }

  lemma {:induction false} RunCounts<T, R>(items: seq<T>, task: T -> R, s: Pool<R>, schedule: seq<nat>)
    requires Runs(items, task, s, schedule)
    ensures |schedule| + Left(|items|, After(items, task, s, schedule)) == Left(|items|, s)
    decreases |schedule|
  {
    hide Act, Left;
    if schedule != [] {
      ActCounts(items, task, s, schedule[0]);
      RunCounts(items, task, Act(items, task, s, schedule[0]), schedule[1..]);
    }
  }

  predicate Over<R>(s: Pool<R>) {
    forall w :: 0 <= w < |s.workers| ==> s.workers[w].Exited?
  }

  /** Every run is over after exactly three actions for each item and one for each worker, not earlier and not later;
      until then every worker that has not exited can act. */
  lemma EveryRunEnds<T, R>(items: seq<T>, task: T -> R, maxWorkers: nat, schedule: seq<nat>)
    requires Runs(items, task, Initial(|items|, maxWorkers), schedule)
    ensures var total := 3 * |items| + WorkerCount(|items|, maxWorkers);
      && |schedule| <= total
      && (Over(After(items, task, Initial(|items|, maxWorkers), schedule)) <==> |schedule| == total)
    ensures var s := After(items, task, Initial(|items|, maxWorkers), schedule);
      forall w :: 0 <= w < |s.workers| && !s.workers[w].Exited? ==> Runs(items, task, s, [w])
  {
    hide Safe, Runs, After;
    var start: Pool<R> := Initial(|items|, maxWorkers);
    var s := After(items, task, start, schedule);
    InitialIsSafe(items, task, maxWorkers);
    RunIsSafe(items, task, start, schedule);
    RunCounts(items, task, start, schedule);
    InitialWeight<R>(WorkerCount(|items|, maxWorkers));
    NoWeight(s.workers);
    OverIsWeightless(items, task, s, maxWorkers);
    forall w | 0 <= w < |s.workers| && !s.workers[w].Exited? ensures Runs(items, task, s, [w]) {
      ActIsSafe(items, task, s, w);
      CanAct(items, task, s, w);
    }
  }

  lemma CanAct<T, R>(items: seq<T>, task: T -> R, s: Pool<R>, w: nat)
    requires w < |s.workers| && !s.workers[w].Exited?
    requires s.workers[w].Running? ==> s.workers[w].index < |items|
    ensures Runs(items, task, s, [w])
  {
    assert [w][1..] == [];
  }

  lemma OverIsWeightless<T, R>(items: seq<T>, task: T -> R, s: Pool<R>, maxWorkers: nat)
    requires Safe(items, task, s) && |s.workers| == WorkerCount(|items|, maxWorkers)
    ensures Over(s) <==> Left(|items|, s) == 0
  {
    NoWeight(s.workers);
    if Over(s) && |s.workers| > 0 {
      assert s.workers[0].Exited?;
    }
  }

  // ---------------------------------------------------------------- results

  function Results<T, R>(items: seq<T>, task: T -> R): (r: seq<R>)
    ensures |r| == |items|
    ensures forall i :: 0 <= i < |items| ==> r[i] == task(items[i])
  {
    seq(|items|, i requires 0 <= i < |items| => task(items[i]))
  }

  /** When all workers are gone, the channel holds every index once, with its own result. */
  lemma OverHasAll<T, R>(items: seq<T>, task: T -> R, s: Pool<R>, maxWorkers: nat)
    requires Safe(items, task, s) && |s.workers| == WorkerCount(|items|, maxWorkers) && Over(s)
    ensures forall i :: 0 <= i < |items| ==> InChannel(s, i)
    ensures |s.channel| == |items|
  {
    if |s.workers| > 0 {
      assert s.workers[0].Exited?;
    }
    forall i | 0 <= i < |items| ensures InChannel(s, i) {
      assert s.started[i] == i;
      assert Held(s, i) || InChannel(s, i);
    }
    forall i: nat | i < |items| ensures i in Indexes(s.channel) {
      assert InChannel(s, i);
    }
    assert Indexes(s.channel) == UpTo(|items|);
    IndexesCount(s.channel);
  }

  function UpTo(n: nat): (s: set<nat>)
    ensures |s| == n && forall i: nat :: i in s <==> i < n
  {
    if n == 0 then {} else UpTo(n - 1) + {n - 1}
  }

  function Indexes<R>(channel: seq<Sent<R>>): (s: set<nat>)
    ensures forall k :: 0 <= k < |channel| ==> channel[k].index in s
    ensures forall i :: i in s ==> exists k :: 0 <= k < |channel| && channel[k].index == i
  {
    if channel == [] then {}
    else
      var n := |channel| - 1;
      assert forall k :: 0 <= k < n ==> channel[..n][k] == channel[k];
      Indexes(channel[..n]) + {channel[n].index}
  }

  lemma {:induction false} IndexesCount<R>(channel: seq<Sent<R>>)
    requires forall j, k :: 0 <= j < k < |channel| ==> channel[j].index != channel[k].index
    ensures |Indexes(channel)| == |channel|
  {
    if channel != [] {
      var n := |channel| - 1;
      IndexesCount(channel[..n]);
      assert channel[n].index !in Indexes(channel[..n]);
    }
  }

  /** The collecting side: results written by index into as many empty places as there are items. The original's
      `expect` on each place never fires: no place is left empty. */
  method Collect<T, R>(items: seq<T>, task: T -> R, s: Pool<R>, maxWorkers: nat) returns (results: seq<R>)
    requires Safe(items, task, s) && |s.workers| == WorkerCount(|items|, maxWorkers) && Over(s)
    ensures results == Results(items, task)
  {
    OverHasAll(items, task, s, maxWorkers);
    var n := |items|;
    var places := new Option<R>[n](_ => None);
    for k := 0 to |s.channel|
      invariant forall i :: 0 <= i < n ==> (places[i].Some? <==> exists j :: 0 <= j < k && s.channel[j].index == i)
      invariant forall i :: 0 <= i < n && places[i].Some? ==> places[i].value == task(items[i])
    {
      var sent := s.channel[k];
      if sent.index < places.Length {
        places[sent.index] := Some(sent.result);
      }
    }
    results := [];
    for i := 0 to n
      invariant |results| == i && forall j :: 0 <= j < i ==> results[j] == task(items[j])
    {
      assert InChannel(s, i);
      results := results + [places[i].value];
    }
  }

  /** The whole pool, with an arbitrary scheduler: the results are those of the tasks, in input order. */
  method RunBoundedOrdered<T, R>(items: seq<T>, maxWorkers: nat, task: T -> R) returns (results: seq<R>)
    ensures results == Results(items, task)
  {
    hide Safe, Left, Act;
    if items == [] {
      return [];
    }
    var s: Pool<R> := Initial(|items|, maxWorkers);
    InitialIsSafe(items, task, maxWorkers);
    while !Over(s)
      invariant Safe(items, task, s) && |s.workers| == WorkerCount(|items|, maxWorkers)
      decreases Left(|items|, s)
    {
      var w :| 0 <= w < |s.workers| && !s.workers[w].Exited?;
      ActIsSafe(items, task, s, w);
      ActCounts(items, task, s, w);
      s := Act(items, task, s, w);
    }
    results := Collect(items, task, s, maxWorkers);
  }
}
