/** What happens to a request's row behind its end, and when its tokens count. */
module LateRows {
  import opened Text
  import opened Metrics
  import opened Monitoring
  import opened MonitorCounts
  import opened TokenHistory
  import opened RequestReading
  import opened RequestOutcomes

  /** The row on record for an id: the newest one. */
  function RowOf(recent: seq<Row>, id: string): (r: Option<Row>)
    ensures r.Some? ==> r.value.id == id && r.value in recent
  {
    match FindRow(recent, id)
    case Some(k) => Some(recent[k])
    case None => None
  }

  /** How late reports go on measuring. */
  function StillMeasured(row: Row, es: seq<Timestamped>): Generation {
    if es == [] then row.generation
    else
      var n := |es| - 1;
      var before := StillMeasured(row, es[..n]);
      if Reports(es[n].event, row.id)
      then Progressed(before, FirstOf(Last(es, row.id, SaysOutput), row.output), GivesBytes(es[n].event), es[n].now)
      else before
  }

  /** A row as it reads once these events have come late. */
  function Late(row: Row, es: seq<Timestamped>): Row {
    row.(bytes := row.bytes + SumOf(es, row.id, GivesBytes), chunks := row.chunks + SumOf(es, row.id, GivesChunks),
         input := FirstOf(Last(es, row.id, SaysInput), row.input),
         output := FirstOf(Last(es, row.id, SaysOutput), row.output),
         marks := row.marks.(clientType := FirstOf(Last(es, row.id, SaysClient), row.marks.clientType)),
         generation := StillMeasured(row, es))
  }

  lemma LateOneMore(row: Row, es: seq<Timestamped>, at: Timestamped)
    ensures at.event.id != row.id ==> Late(row, es + [at]) == Late(row, es)
    ensures at.event.id == row.id ==>
      var was, e := Late(row, es), at.event;
      Late(row, es + [at]) ==
        was.(bytes := was.bytes + GivesBytes(e), chunks := was.chunks + GivesChunks(e),
             input := FirstOf(SaysInput(e), was.input), output := FirstOf(SaysOutput(e), was.output),
             marks := was.marks.(clientType := FirstOf(SaysClient(e), was.marks.clientType)),
             generation :=
               if Reports(e, row.id)
               then Progressed(was.generation, FirstOf(SaysOutput(e), was.output), GivesBytes(e), at.now)
               else was.generation)
  {
    hide Last, SumOf, Progressed;
    LastOneMore(es, at, row.id, SaysInput);
    LastOneMore(es, at, row.id, SaysOutput);
    LastOneMore(es, at, row.id, SaysClient);
    SumOneMore(es, at, row.id, GivesBytes);
    SumOneMore(es, at, row.id, GivesChunks);
    assert (es + [at])[..|es|] == es;
  }

  /** The id neither starts nor ends again. */
  predicate Over(e: Event, id: string) {
    e.id == id ==> !e.RequestStarted? && !e.RequestCompleted? && !e.RequestFailed?
  }

  lemma RowPushed(recent: seq<Row>, row: Row, limit: nat, id: string)
    requires row.id != id && RowOf(Pushed(recent, row, limit), id).Some?
    ensures RowOf(Pushed(recent, row, limit), id) == RowOf(recent, id)
  {
    var all := [row] + recent;
    assert all[1..] == recent;
    if |all| > limit {
      FindCut(all, limit, id);
    }
  }

  lemma RowReplaced(recent: seq<Row>, k: nat, row: Row, id: string)
    requires FindRow(recent, row.id) == Some(k)
    ensures RowOf(recent[k := row], id) == if row.id == id then Some(row) else RowOf(recent, id)
  {
    FindReplaced(recent, k, row, id);
  }

  /** An event of another request changes the row of this one only by pushing it out. */
  lemma OthersKeepRow(c: Core, at: Timestamped, id: string)
    requires Sized(c.metrics) && at.event.id != id && RowOf(Apply(c, at.event, at.now).core.recent, id).Some?
    ensures RowOf(Apply(c, at.event, at.now).core.recent, id) == RowOf(c.recent, id)
  {
    hide RowOf, Progressed, OnFinished, Overruled, Begun, OnPhase, OnProgress, OnStarted, ActiveReport, Bumped, Renamed,
         Pushed, FinalEmission, LateEmission, Ended, FindRow;
    var e := at.event;
    if IsEnd(e) {
      var a := if e.id in c.active then c.active[e.id] else Begun(None, Messages, at.now);
      match e {
        case RequestCompleted(x, code, input, output) =>
          FinishKeepsRow(c, x, a, Completed, Some(code), input, output, None, at.now, id);
        case RequestFailed(x, code, error) =>
          FinishKeepsRow(c, x, a, Failed, code, None, None, Some(error), at.now, id);
        case RequestAbandoned(x, error) =>
          FinishKeepsRow(c, x, a, Abandoned, None, None, None, Some(error), at.now, id);
      }
    } else if e.id !in c.active && FindRow(c.recent, e.id).Some? {
      var k := FindRow(c.recent, e.id).value;
      match e {
        case StreamProgress(_, bytes, chunks, input, output) =>
          RowReplaced(c.recent, k, RowReport(c.recent[k], bytes, chunks, input, output, at.now), id);
        case UsageUpdated(_, input, output) =>
          RowReplaced(c.recent, k, RowReport(c.recent[k], 0, 0, input, output, at.now), id);
        case ClientTypeResolved(_, clientType) =>
          RowReplaced(c.recent, k, c.recent[k].(marks := c.recent[k].marks.(clientType := Some(clientType))), id);
        case _ =>
      }
    }
  }

  lemma FinishKeepsRow(c: Core, x: string, a: Active, status: Status, code: Option<nat>, input: Option<nat>,
                       output: Option<nat>, error: Option<string>, now: Now, id: string)
    requires Sized(c.metrics) && x != id
    requires a == if x in c.active then c.active[x] else Begun(None, Messages, now)
    ensures var recent := Finish(c, x, status, code, input, output, error, now).core.recent;
      RowOf(recent, id).Some? ==> RowOf(recent, id) == RowOf(c.recent, id)
  {
    hide RowOf, OnFinished, Overruled, Begun, Pushed, FinalEmission, Ended;
    EndedHasId(x, a, status, code, input, output, error, now);
    var row := Ended(x, a, status, code, input, output, error, now);
    if RowOf(Pushed(c.recent, row, c.limit), id).Some? {
      RowPushed(c.recent, row, c.limit, id);
    }
  }

  /** A late event of the request itself. */
  lemma LateEvent(c: Core, at: Timestamped, row: Row, es: seq<Timestamped>)
    requires Sized(c.metrics) && at.event.id == row.id && Over(at.event, row.id) && row.id !in c.active
    requires RowOf(c.recent, row.id) == Some(Late(row, es))
    ensures RowOf(Apply(c, at.event, at.now).core.recent, row.id) == Some(Late(row, es + [at]))
    ensures row.id !in Apply(c, at.event, at.now).core.active
    ensures var was, now := Late(row, es).output.GetOr(0), Late(row, es + [at]);
      Apply(c, at.event, at.now).emission ==
        if now.output.GetOr(0) > was
        then Some(Emission(row.session, now.generation.finished.GetOr(row.finishedAt), now.output.value - was))
        else None
  {
    hide Progressed, Late, FindRow;
    LateOneMore(row, es, at);
    LateKeeps(row, es);
    LateKeeps(row, es + [at]);
    var k := FindRow(c.recent, row.id).value;
    RowReplaced(c.recent, k, Late(row, es + [at]), row.id);
  }

  lemma LateKeeps(row: Row, es: seq<Timestamped>)
    ensures var r := Late(row, es); r.id == row.id && r.session == row.session && r.finishedAt == row.finishedAt
  {}

  // ---------------------------------------------------------------- whole runs

  /** While these events come, the row stays on record and its id neither starts nor ends again. */
  predicate StaysOnRecord(c: Core, events: seq<Timestamped>, id: string)
    requires Sized(c.metrics)
    decreases |events|
  {
    events == [] ||
    var c1 := Apply(c, events[0].event, events[0].now).core;
    Over(events[0].event, id) && RowOf(c1.recent, id).Some? && StaysOnRecord(c1, events[1..], id)
  }

  lemma {:induction false} LateRun(c: Core, row: Row, es: seq<Timestamped>, events: seq<Timestamped>)
    requires Sized(c.metrics) && row.id !in c.active && RowOf(c.recent, row.id) == Some(Late(row, es))
    requires StaysOnRecord(c, events, row.id)
    ensures RowOf(After(c, events).recent, row.id) == Some(Late(row, es + events))
    decreases |events|
  {
    hide Apply, Late, RowOf, Over;
    if events == [] {
      assert es + events == es;
    } else {
      var at := events[0];
      var c1 := Apply(c, at.event, at.now).core;
      if at.event.id == row.id {
        LateEvent(c, at, row, es);
      } else {
        OthersKeepRow(c, at, row.id);
        LateOneMore(row, es, at);
        OthersStay(c, row.id, at);
      }
      assert es + [at] + events[1..] == es + events;
      LateRun(c1, row, es + [at], events[1..]);
    }
  }

  /** Once a request is over, its row reads as it did, with what comes late added: bytes and chunks add up, counts and
      client type are the last ones named. */
  lemma RowIsReadLate(c: Core, row: Row, events: seq<Timestamped>)
    requires Sized(c.metrics) && row.id !in c.active && RowOf(c.recent, row.id) == Some(row)
    requires StaysOnRecord(c, events, row.id)
    ensures RowOf(After(c, events).recent, row.id) == Some(Late(row, events))
  {
    hide After, StaysOnRecord, RowOf;
    NothingLate(row);
    LateRun(c, row, [], events);
    assert [] + events == events;
  }

  lemma NothingLate(row: Row)
    ensures Late(row, []) == row
  {}

  // ---------------------------------------------------------------- when tokens count

  /** The end of an active request hands its output tokens to its session, as of the end. */
  lemma TokensAtTheEnd(limit: nat, events: seq<Timestamped>, end: Timestamped)
    requires EndsActive(After(Fresh(limit), events), end.event)
    ensures var c, id := After(Fresh(limit), events), end.event.id;
      && LastStart(events, id).Some?
      && var p := LastStart(events, id).value; var row := RowRead(id, events[p], events[p + 1..], end);
      Apply(c, end.event, end.now).emission ==
        if row.output.GetOr(0) > 0
        then Some(Emission(events[p].event.session, end.now.wall, row.output.value)) else None
  {
    hide After, Apply, EndsActive, Read, RowRead, LastStart, Fresh;
    FreshLimit(limit);
    var c, id := After(Fresh(limit), events), end.event.id;
    ActiveIsRead(limit, events, id);
    EndWasActive(c, end.event);
    var p := LastStart(events, id).value;
    EndEmits(c, events[p], events[p + 1..], end);
  }

  lemma NeverFinishedUnstarted(id: string, start: Timestamped, es: seq<Timestamped>)
    requires start.event.RequestStarted?
    ensures var g := Read(id, start, es).generation; g.started.None? ==> g.finished.None?
  {}

  lemma EndEmits(c: Core, start: Timestamped, es: seq<Timestamped>, end: Timestamped)
    requires Sized(c.metrics) && EndsActive(c, end.event) && start.event.RequestStarted?
    requires c.active[end.event.id] == Read(end.event.id, start, es)
    ensures var row := RowRead(end.event.id, start, es, end);
      Apply(c, end.event, end.now).emission ==
        if row.output.GetOr(0) > 0 then Some(Emission(start.event.session, end.now.wall, row.output.value)) else None
  {
    hide OnFinished, Overruled, BadlyOnRecord, Read, Begun, Pushed;
    RecordedBadly(c, end.event.id, EndStatus(end.event));
    ReadStart(end.event.id, start, es);
    NeverFinishedUnstarted(end.event.id, start, es);
  }

  /** The end of a request that is not active: a failure, and a completion unless a failure is on record, leave a bare
      row that counts for no session; anything else changes nothing. */
  lemma UnknownEnd(c: Core, at: Timestamped)
    requires Sized(c.metrics) && at.event.id !in c.active && IsEnd(at.event)
    ensures var e, r := at.event, Apply(c, at.event, at.now);
      if e.RequestAbandoned? || (e.RequestCompleted? && BadlyOnRecord(c, e.id)) then r == Applied(c, None)
      else
        var input, output := SaidInput(e), SaidOutput(e);
        var row := Row(e.id, None, Messages, Marks(None, None, None, None), Generation(None, false, None), EndStatus(e),
                       EndCode(e), at.now.wall, 0, 0, input, output, EndError(e));
        && r.core == c.(recent := Kept([row] + c.recent, c.limit))
        && r.emission == (if output.GetOr(0) > 0 then Some(Emission(None, at.now.wall, output.value)) else None)
  {
    hide OnFinished, BadlyOnRecord, Overruled;
    RecordedBadly(c, at.event.id, EndStatus(at.event));
    assert c.active - {at.event.id} == c.active;
  }

  function SaidInput(e: Event): Option<nat> {
    if e.RequestCompleted? then e.input else None
  }

  function SaidOutput(e: Event): Option<nat> {
    if e.RequestCompleted? then e.output else None
  }

  /** The newest rows, no more than the limit. */
  function Kept(rows: seq<Row>, limit: nat): seq<Row> {
    if |rows| <= limit then rows else rows[..limit]
  }

  /** What a guard leaves on record for its active request: the code it was told first, with the error if it was told of
      one, or the abandonment of a stream that was dropped. */
  lemma GuardLeavesRow(c: Core, id: string, calls: seq<Told>, now: Now)
    requires Sized(c.metrics) && c.limit > 0 && id in c.active
    requires calls != [] && calls[0].Done? ==> !BadlyOnRecord(c, id)
    ensures var recent := Apply(c, GuardSays(id, calls), now).core.recent;
      && recent != [] && recent[0].id == id && recent[0].session == c.active[id].session
      && (calls != [] && calls[0].Done? ==>
            recent[0].status == Completed && recent[0].code == Some(calls[0].code) && recent[0].error == None)
      && (calls != [] && calls[0].Broke? ==>
            recent[0].status == Failed && recent[0].code == Some(calls[0].code)
            && recent[0].error == Some(calls[0].error))
      && (calls == [] ==>
            recent[0].status == Abandoned && recent[0].code == None
            && recent[0].error == Some("Client response stream disconnected before completion"))
  {
    hide OnFinished, BadlyOnRecord, Overruled, Begun;
    RecordedBadly(c, id, Completed);
    RecordedBadly(c, id, Failed);
    RecordedBadly(c, id, Abandoned);
  }
}
