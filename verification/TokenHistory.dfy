/** The output tokens a request hands to its session's history add up to its output count. */
module TokenHistory {
  import opened Text
  import opened Metrics
  import opened Monitoring

  /** The output count on record for an id: that of its row, 0 while there is none. */
  function Held(recent: seq<Row>, id: string): nat {
    match FindRow(recent, id)
    case Some(k) => recent[k].output.GetOr(0)
    case None => 0
  }

  predicate HasRow(c: Core, id: string) {
    FindRow(c.recent, id).Some?
  }

  predicate LateReports(c: Core, e: Event) {
    (e.StreamProgress? || e.UsageUpdated?) && e.id !in c.active
  }

  /** The request has one terminal event, and its row stays on record. */
  predicate Retained(c: Core, e: Event, now: Now, id: string)
    requires Sized(c.metrics)
  {
    && (HasRow(c, id) || (e.id == id && AddsRow(c, e)) ==> HasRow(Apply(c, e, now).core, id))
    && !(e.id == id && AddsRow(c, e) && HasRow(c, id))
  }

  /** A report, late or not, names a count for this request. */
  function Reported(e: Event, id: string): Option<nat> {
    if e.id != id then None
    else match e
      case StreamProgress(_, _, _, _, output) => output
      case UsageUpdated(_, _, output) => output
      case RequestCompleted(_, _, _, output) => output
      case _ => None
  }

  function Emitted(c: Core, e: Event, now: Now, id: string): nat
    requires Sized(c.metrics)
  {
    var emission := Apply(c, e, now).emission;
    if e.id == id && emission.Some? then emission.value.tokens else 0
  }

  /** A late report names a count below the one on record. */
  predicate Drops(c: Core, e: Event, id: string) {
    LateReports(c, e) && Reported(e, id).Some? && Reported(e, id).value < Held(c.recent, id)
  }

  function Dropped(c: Core, e: Event, id: string): nat {
    if Drops(c, e, id) then Held(c.recent, id) - Reported(e, id).value else 0
  }

  lemma {:induction false} FindReplaced(recent: seq<Row>, k: nat, row: Row, id: string)
    requires k < |recent| && row.id == recent[k].id
    ensures FindRow(recent[k := row], id) == FindRow(recent, id)
  {
    if k > 0 {
      assert recent[k := row][1..] == recent[1..][k - 1 := row];
      FindReplaced(recent[1..], k - 1, row, id);
    } else {
      assert recent[k := row][1..] == recent[1..];
    }
  }

  lemma {:induction false} FindCut(recent: seq<Row>, n: nat, id: string)
    requires n <= |recent|
    ensures FindRow(recent[..n], id).Some? ==> FindRow(recent[..n], id) == FindRow(recent, id)
  {
    if n > 0 {
      assert recent[..n][1..] == recent[1..][..n - 1];
      FindCut(recent[1..], n - 1, id);
    }
  }

  lemma HeldReplaced(recent: seq<Row>, k: nat, row: Row, id: string)
    requires k < |recent| && row.id == recent[k].id
    requires recent[k].id == id ==> FindRow(recent, id) == Some(k)
    ensures Held(recent[k := row], id) == if recent[k].id == id then row.output.GetOr(0) else Held(recent, id)
  {
    FindReplaced(recent, k, row, id);
  }

  lemma HeldPushed(recent: seq<Row>, row: Row, limit: nat, id: string)
    ensures FindRow(Pushed(recent, row, limit), id).Some? ==>
      Held(Pushed(recent, row, limit), id) == if row.id == id then row.output.GetOr(0) else Held(recent, id)
    ensures FindRow(recent, id).None? && row.id != id ==> FindRow(Pushed(recent, row, limit), id).None?
  {
    var all := [row] + recent;
    assert all[1..] == recent;
    assert FindRow(all, id) ==
      if row.id == id then Some(0)
      else match FindRow(recent, id)
        case Some(k) => Some(k + 1)
        case None => None;
    if |all| > limit {
      FindCut(all, limit, id);
    }
  }

  lemma FinishTelescopes(c: Core, id: string, status: Status, code: Option<nat>, input: Option<nat>,
                         output: Option<nat>, error: Option<string>, now: Now, other: string)
    requires Sized(c.metrics)
    ensures var r := Finish(c, id, status, code, input, output, error, now);
      && (Overruled(c, id, status) ==> r == Quiet(c))
      && (!Overruled(c, id, status) ==>
            && (FindRow(r.core.recent, other).Some? ==>
                  Held(r.core.recent, other) == if id != other then Held(c.recent, other)
                                                else if r.emission.Some? then r.emission.value.tokens else 0)
            && (FindRow(c.recent, other).None? && id != other ==> FindRow(r.core.recent, other).None?))
  {
    hide OnFinished, Overruled, FindRow, Pushed, Held, Ended, Begun;
    if !Overruled(c, id, status) {
      var a := if id in c.active then c.active[id] else Begun(None, Messages, now);
      EndedHasId(id, a, status, code, input, output, error, now);
      HeldPushed(c.recent, Ended(id, a, status, code, input, output, error, now), c.limit, other);
    }
  }

  lemma LateTelescopes(c: Core, id: string, bytes: nat, chunks: nat, input: Option<nat>, output: Option<nat>, now: Now,
                       other: string)
    ensures var r := LateReport(c, id, bytes, chunks, input, output, now);
      var emitted := if r.emission.Some? then r.emission.value.tokens else 0;
      && FindRow(r.core.recent, other) == FindRow(c.recent, other)
      && (id != other ==> Held(r.core.recent, other) == Held(c.recent, other))
      && Held(r.core.recent, id) == (if HasRow(c, id) then output.GetOr(Held(c.recent, id)) else 0)
      && emitted == (if Held(r.core.recent, id) > Held(c.recent, id) then Held(r.core.recent, id) - Held(c.recent, id)
                     else 0)
  {
    hide Progressed;
    match FindRow(c.recent, id) {
      case None =>
      case Some(k) =>
        var row := RowReport(c.recent[k], bytes, chunks, input, output, now);
        FindReplaced(c.recent, k, row, other);
        HeldReplaced(c.recent, k, row, other);
        HeldReplaced(c.recent, k, row, id);
    }
  }

  lemma ClientTypeTelescopes(c: Core, id: string, clientType: string, other: string)
    ensures LateClientType(c, id, clientType).active == c.active
    ensures Held(LateClientType(c, id, clientType).recent, other) == Held(c.recent, other)
    ensures FindRow(LateClientType(c, id, clientType).recent, other) == FindRow(c.recent, other)
  {
    match FindRow(c.recent, id) {
      case None =>
      case Some(k) =>
        var row := c.recent[k].(marks := c.recent[k].marks.(clientType := Some(clientType)));
        FindReplaced(c.recent, k, row, other);
        HeldReplaced(c.recent, k, row, other);
    }
  }

  /** One event: what it adds to the recorded count it emits, apart from what it drops. */
  lemma StepTelescopes(c: Core, e: Event, now: Now, id: string)
    requires Sized(c.metrics) && Retained(c, e, now, id)
    ensures Held(Apply(c, e, now).core.recent, id) + Dropped(c, e, id) == Held(c.recent, id) + Emitted(c, e, now, id)
  {
    hide Finish, LateReport, LateClientType, FindRow, OnPhase, OnProgress, OnStarted, ActiveReport, Overruled, Held;
    hide Bumped, Renamed;
    HeldNone(c.recent, id);
    HeldNone(Apply(c, e, now).core.recent, id);
    OnlyCompletionsOverruled(c, e.id, Failed);
    OnlyCompletionsOverruled(c, e.id, Abandoned);
    match e {
      case RequestCompleted(x, code, input, output) =>
        FinishTelescopes(c, x, Completed, Some(code), input, output, None, now, id);
      case RequestFailed(x, code, error) => FinishTelescopes(c, x, Failed, code, None, None, Some(error), now, id);
      case RequestAbandoned(x, error) => FinishTelescopes(c, x, Abandoned, None, None, None, Some(error), now, id);
      case StreamProgress(x, bytes, chunks, input, output) =>
        LateTelescopes(c, x, bytes, chunks, input, output, now, id);
      case UsageUpdated(x, input, output) => LateTelescopes(c, x, 0, 0, input, output, now, id);
      case ClientTypeResolved(x, clientType) => ClientTypeTelescopes(c, x, clientType, id);
      case _ =>
    }
  }

  lemma HeldNone(recent: seq<Row>, id: string)
    ensures FindRow(recent, id).None? ==> Held(recent, id) == 0
  {}

  // ---------------------------------------------------------------- whole runs

  predicate RetainedAll(c: Core, events: seq<Timestamped>, id: string)
    requires Sized(c.metrics)
    decreases |events|
  {
    events == [] ||
      (Retained(c, events[0].event, events[0].now, id)
       && RetainedAll(Apply(c, events[0].event, events[0].now).core, events[1..], id))
  }

  function EmittedAll(c: Core, events: seq<Timestamped>, id: string): nat
    requires Sized(c.metrics)
    decreases |events|
  {
    if events == [] then 0
    else Emitted(c, events[0].event, events[0].now, id)
         + EmittedAll(Apply(c, events[0].event, events[0].now).core, events[1..], id)
  }

  function DroppedAll(c: Core, events: seq<Timestamped>, id: string): nat
    requires Sized(c.metrics)
    decreases |events|
  {
    if events == [] then 0
    else Dropped(c, events[0].event, id) + DroppedAll(Apply(c, events[0].event, events[0].now).core, events[1..], id)
  }

  /** No late report of the run names a count below the one on record. */
  predicate NeverDrops(c: Core, events: seq<Timestamped>, id: string)
    requires Sized(c.metrics)
    decreases |events|
  {
    events == [] || (!Drops(c, events[0].event, id)
                     && NeverDrops(Apply(c, events[0].event, events[0].now).core, events[1..], id))
  }

  lemma {:induction false} RunTelescopes(c: Core, events: seq<Timestamped>, id: string)
    requires Sized(c.metrics) && RetainedAll(c, events, id)
    ensures Held(After(c, events).recent, id) + DroppedAll(c, events, id)
         == Held(c.recent, id) + EmittedAll(c, events, id)
    ensures DroppedAll(c, events, id) == 0 <==> NeverDrops(c, events, id)
    decreases |events|
  {
    hide Apply, Held, Emitted, Retained, Reported;
    if events != [] {
      StepTelescopes(c, events[0].event, events[0].now, id);
      RunTelescopes(Apply(c, events[0].event, events[0].now).core, events[1..], id);
    }
  }

  /** Over every run in which a request has at most one terminal event and its row stays on record, however reports
      fall before or after the terminal event: the tokens it handed on are its final output count plus every drop
      between late reports; so they are its final output count exactly when no late report names a lower count than
      the one on record. */
  lemma TokensTelescope(c: Core, events: seq<Timestamped>, id: string)
    requires Sized(c.metrics) && !HasRow(c, id) && RetainedAll(c, events, id)
    ensures EmittedAll(c, events, id) == Held(After(c, events).recent, id) + DroppedAll(c, events, id)
    ensures EmittedAll(c, events, id) == Held(After(c, events).recent, id) <==> NeverDrops(c, events, id)
  {
    hide After, RetainedAll, EmittedAll, DroppedAll, NeverDrops, FindRow;
    HeldNone(c.recent, id);
    RunTelescopes(c, events, id);
  }

  // ---------------------------------------------------------------- counts that only grow

  /** The counts reported for a request never fall, from this one on. */
  predicate Rising(events: seq<Timestamped>, id: string, top: nat) {
    events == [] || (top <= Reported(events[0].event, id).GetOr(top)
                     && Rising(events[1..], id, Reported(events[0].event, id).GetOr(top)))
  }

  /** Nothing on record for the request, active or recent, exceeds this count. */
  predicate Within(c: Core, id: string, top: nat) {
    && Held(c.recent, id) <= top
    && (id in c.active ==> c.active[id].output.GetOr(0) <= top)
  }

  lemma PushedWithin(recent: seq<Row>, row: Row, limit: nat, id: string, top: nat)
    requires Held(recent, id) <= top && (row.id == id ==> row.output.GetOr(0) <= top)
    ensures Held(Pushed(recent, row, limit), id) <= top
  {
    hide FindRow, Pushed, Held;
    HeldPushed(recent, row, limit, id);
    HeldNone(Pushed(recent, row, limit), id);
  }

  lemma FinishWithin(c: Core, id: string, status: Status, code: Option<nat>, input: Option<nat>, output: Option<nat>,
                     error: Option<string>, now: Now, other: string, top: nat)
    requires Sized(c.metrics) && Within(c, other, top) && (id == other ==> output.GetOr(0) <= top)
    ensures Within(Finish(c, id, status, code, input, output, error, now).core, other, top)
  {
    hide OnFinished, Overruled, Pushed, Begun, Ended, Held, FinalEmission, Sized;
    if !Overruled(c, id, status) {
      var a := if id in c.active then c.active[id] else Begun(None, Messages, now);
      var row := Ended(id, a, status, code, input, output, error, now);
      BegunSaysNothing(None, Messages, now);
      EndedHasId(id, a, status, code, input, output, error, now);
      PushedWithin(c.recent, row, c.limit, other, top);
      var c1 := Finish(c, id, status, code, input, output, error, now).core;
      assert c1.recent == Pushed(c.recent, row, c.limit) && c1.active == c.active - {id};
    }
  }

  lemma BegunSaysNothing(session: Option<string>, endpoint: Endpoint, now: Now)
    ensures Begun(session, endpoint, now).output.None?
  {}

  /** One event keeps what is on record within the highest count reported. */
  lemma StepWithin(c: Core, e: Event, now: Now, id: string, top: nat)
    requires Sized(c.metrics) && Within(c, id, top) && top <= Reported(e, id).GetOr(top)
    ensures Within(Apply(c, e, now).core, id, Reported(e, id).GetOr(top))
  {
    hide Finish, LateReport, LateClientType, FindRow, OnPhase, OnProgress, OnStarted, Progressed, Held, Bumped, Renamed;
    var next := Reported(e, id).GetOr(top);
    assert Within(c, id, next);
    match e {
      case RequestCompleted(x, code, input, output) =>
        FinishWithin(c, x, Completed, Some(code), input, output, None, now, id, next);
      case RequestFailed(x, code, error) => FinishWithin(c, x, Failed, code, None, None, Some(error), now, id, next);
      case RequestAbandoned(x, error) => FinishWithin(c, x, Abandoned, None, None, None, Some(error), now, id, next);
      case StreamProgress(x, bytes, chunks, input, output) =>
        LateWithin(c, x, bytes, chunks, input, output, now, id, next);
      case UsageUpdated(x, input, output) => LateWithin(c, x, 0, 0, input, output, now, id, next);
      case ClientTypeResolved(x, clientType) => ClientTypeTelescopes(c, x, clientType, id);
      case _ =>
    }
  }

  lemma LateWithin(c: Core, id: string, bytes: nat, chunks: nat, input: Option<nat>, output: Option<nat>, now: Now,
                   other: string, top: nat)
    requires Held(c.recent, other) <= top && (id == other ==> output.GetOr(0) <= top)
    ensures var r := LateReport(c, id, bytes, chunks, input, output, now).core;
      Held(r.recent, other) <= top && r.active == c.active
  {
    hide Held;
    LateTelescopes(c, id, bytes, chunks, input, output, now, other);
    LateTelescopes(c, id, bytes, chunks, input, output, now, id);
  }

  lemma {:induction false} RisingNeverDrops(c: Core, events: seq<Timestamped>, id: string, top: nat)
    requires Sized(c.metrics) && Within(c, id, top) && Rising(events, id, top)
    ensures NeverDrops(c, events, id)
    decreases |events|
  {
    hide Apply, Held, Reported;
    if events != [] {
      var next := Reported(events[0].event, id).GetOr(top);
      StepWithin(c, events[0].event, events[0].now, id, top);
      RisingNeverDrops(Apply(c, events[0].event, events[0].now).core, events[1..], id, next);
    }
  }

  /** With reported counts that never fall, a request on record hands on exactly its final output count. */
  lemma RisingIsExact(limit: nat, events: seq<Timestamped>, id: string)
    requires RetainedAll(Fresh(limit), events, id) && Rising(events, id, 0)
    ensures EmittedAll(Fresh(limit), events, id) == Held(After(Fresh(limit), events).recent, id)
  {
    hide After, RetainedAll, EmittedAll, DroppedAll, NeverDrops, Rising;
    RisingNeverDrops(Fresh(limit), events, id, 0);
    TokensTelescope(Fresh(limit), events, id);
  }
}
