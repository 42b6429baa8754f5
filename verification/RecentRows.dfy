/** Exactly when the recent rows stay unique. */
module RecentRows {
  import opened Text
  import opened Metrics
  import opened Monitoring
  import opened MonitorBooks
  import opened RequestOutcomes

  predicate UniqueRows(recent: seq<Row>) {
    forall i, j :: 0 <= i < j < |recent| ==> recent[i].id != recent[j].id
  }

  /** The request ends while a row of its id is on record, in a place the new row does not push off the end. */
  predicate Repeats(c: Core, e: Event) {
    AddsRow(c, e) && exists k :: 0 <= k < |c.recent| && k + 1 < c.limit && c.recent[k].id == e.id
  }

  lemma PushedUnique(recent: seq<Row>, row: Row, limit: nat)
    requires UniqueRows(recent)
    ensures UniqueRows(Pushed(recent, row, limit)) <==>
      !exists k :: 0 <= k < |recent| && k + 1 < limit && recent[k].id == row.id
  {
    var pushed := Pushed(recent, row, limit);
    forall k | 0 <= k < |recent| && k + 1 < limit && recent[k].id == row.id ensures !UniqueRows(pushed) {
      assert pushed[0].id == pushed[k + 1].id;
    }
    if !exists k :: 0 <= k < |recent| && k + 1 < limit && recent[k].id == row.id {
      forall i, j | 0 <= i < j < |pushed| ensures pushed[i].id != pushed[j].id {
        assert pushed[j] == recent[j - 1];
        if i > 0 {
          assert pushed[i] == recent[i - 1];
        }
      }
    }
  }

  lemma FinishUnique(c: Core, id: string, status: Status, code: Option<nat>, input: Option<nat>, output: Option<nat>,
                     error: Option<string>, now: Now)
    requires Sized(c.metrics) && UniqueRows(c.recent)
    ensures UniqueRows(Finish(c, id, status, code, input, output, error, now).core.recent) <==>
      Overruled(c, id, status) || !exists k :: 0 <= k < |c.recent| && k + 1 < c.limit && c.recent[k].id == id
  {
    hide OnFinished, Overruled, Pushed, UniqueRows, FinalEmission, Begun, Ended, Sized;
    if !Overruled(c, id, status) {
      var a := if id in c.active then c.active[id] else Begun(None, Messages, now);
      var row := Ended(id, a, status, code, input, output, error, now);
      EndedHasId(id, a, status, code, input, output, error, now);
      PushedUnique(c.recent, row, c.limit);
      assert Finish(c, id, status, code, input, output, error, now).core.recent == Pushed(c.recent, row, c.limit);
    }
  }

  /** Whatever else an event does to the rows, each keeps its place and its id. */
  lemma RowsStay(c: Core, e: Event, now: Now)
    requires Sized(c.metrics) && !AddsRow(c, e)
    ensures var after := Apply(c, e, now).core.recent;
      |after| == |c.recent| && forall k :: 0 <= k < |after| ==> after[k].id == c.recent[k].id
  {
    hide OnFinished, OnPhase, OnProgress, OnStarted, ActiveReport, Overruled, LateEmission, Bumped, Renamed, Progressed;
    OnlyCompletionsOverruled(c, e.id, Failed);
  }

  /** After an event on unique rows the rows are unique, unless it repeats a row; and then they are not. */
  lemma StepUnique(c: Core, e: Event, now: Now)
    requires Sized(c.metrics) && UniqueRows(c.recent)
    ensures UniqueRows(Apply(c, e, now).core.recent) <==> !Repeats(c, e)
  {
    hide Finish, Overruled, UniqueRows, LateReport, LateClientType, Phase, Progress, OnStarted, ActiveReport, Renamed;
    OnlyCompletionsOverruled(c, e.id, Failed);
    OnlyCompletionsOverruled(c, e.id, Abandoned);
    if !AddsRow(c, e) {
      RowsStay(c, e, now);
      SameIdsUnique(c.recent, Apply(c, e, now).core.recent);
    } else {
      match e {
        case RequestCompleted(id, code, input, output) =>
          FinishUnique(c, id, Completed, Some(code), input, output, None, now);
        case RequestFailed(id, code, error) => FinishUnique(c, id, Failed, code, None, None, Some(error), now);
        case RequestAbandoned(id, error) => FinishUnique(c, id, Abandoned, None, None, None, Some(error), now);
      }
    }
  }

  lemma SameIdsUnique(a: seq<Row>, b: seq<Row>)
    requires |a| == |b| && forall k :: 0 <= k < |a| ==> a[k].id == b[k].id
    ensures UniqueRows(a) <==> UniqueRows(b)
  {}

  /** Over every run from an empty monitor: the rows are unique all along exactly when no event repeats a row. */
  lemma UniqueThroughout(limit: nat, events: seq<Timestamped>)
    ensures (forall n :: 0 <= n <= |events| ==> UniqueRows(After(Fresh(limit), events[..n]).recent))
      <==> forall n :: 0 <= n < |events| ==> !Repeats(After(Fresh(limit), events[..n]), events[n].event)
  {
    hide After, Apply, Repeats, UniqueRows;
    var c := Fresh(limit);
    if forall n :: 0 <= n <= |events| ==> UniqueRows(After(c, events[..n]).recent) {
      forall n | 0 <= n < |events| ensures !Repeats(After(c, events[..n]), events[n].event) {
        StepUnique(After(c, events[..n]), events[n].event, events[n].now);
        AfterOneMore(c, events, n);
        assert UniqueRows(After(c, events[..n + 1]).recent);
      }
    }
    if forall n :: 0 <= n < |events| ==> !Repeats(After(c, events[..n]), events[n].event) {
      forall n | 0 <= n <= |events| ensures UniqueRows(After(c, events[..n]).recent) {
        UnrepeatedIsUnique(limit, events, n);
      }
    }
  }

  lemma {:induction false} UnrepeatedIsUnique(limit: nat, events: seq<Timestamped>, n: nat)
    requires n <= |events|
    requires forall k :: 0 <= k < |events| ==> !Repeats(After(Fresh(limit), events[..k]), events[k].event)
    ensures UniqueRows(After(Fresh(limit), events[..n]).recent)
    decreases n
  {
    hide Apply, Repeats;
    if n > 0 {
      UnrepeatedIsUnique(limit, events, n - 1);
      StepUnique(After(Fresh(limit), events[..n - 1]), events[n - 1].event, events[n - 1].now);
      AfterOneMore(Fresh(limit), events, n - 1);
    }
  }

  /** Such a run: a failure after a completion adds a second row with the same id, and no second outcome. */
  lemma LateFailureAddsRow(c: Core, id: string, code: nat, error: string, now: Now)
    requires Sized(c.metrics) && id in c.active && c.limit >= 2 && !Overruled(c, id, Completed)
    ensures var once := Apply(c, RequestCompleted(id, code, None, None), now).core;
      var twice := Apply(once, RequestFailed(id, Some(code), error), now).core;
      && |twice.recent| >= 2 && twice.recent[0].id == twice.recent[1].id == id
      && Outcomes(twice.metrics) == Outcomes(once.metrics) == Outcomes(c.metrics) + 1
  {
    hide OnFinished, Outcomes, FinalEmission, Overruled;
    var done, failed := RequestCompleted(id, code, None, None), RequestFailed(id, Some(code), error);
    OutcomeWhenRemoved(c, done, now);
    var once := Apply(c, done, now).core;
    OutcomeWhenRemoved(once, failed, now);
    assert !Overruled(once, id, Failed) by {
      OnlyCompletionsOverruled(once, id, Failed);
    }
  }
}
