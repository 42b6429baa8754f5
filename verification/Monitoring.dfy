/** The monitor's request life cycle: which events move a request between the active and the recent rows, what is
    counted, and which output tokens go to the session history. */
module Monitoring {
  import opened Text
  import opened Metrics

  /** When output began to be measured, whether by token counts, and when it last ended. */
  datatype Generation = Generation(started: Option<nat>, counting: bool, finished: Option<nat>)

  datatype Active = Active(session: Option<string>, endpoint: Endpoint, marks: Marks, startedInstant: nat,
                           generation: Generation, status: Status, bytes: nat, chunks: nat,
                           input: Option<nat>, output: Option<nat>, timers: Timers)

  datatype Row = Row(id: string, session: Option<string>, endpoint: Endpoint, marks: Marks, generation: Generation,
                     status: Status, code: Option<nat>, finishedAt: nat, bytes: nat, chunks: nat,
                     input: Option<nat>, output: Option<nat>, error: Option<string>)

  datatype Event =
    | RequestStarted(id: string, session: Option<string>, endpoint: Endpoint)
    | ProviderChosen(id: string, provider: string, model: string)
    | ClientTypeResolved(id: string, clientType: string)
    | AccountResolved(id: string, account: string)
    | UpstreamError(id: string, code: nat)
    | ModelResolved(id: string, model: string)
    | RequestPhase(id: string, phase: Status)
    | StreamProgress(id: string, bytes: nat, chunks: nat, input: Option<nat>, output: Option<nat>)
    | UsageUpdated(id: string, input: Option<nat>, output: Option<nat>)
    | RequestCompleted(id: string, code: nat, input: Option<nat>, output: Option<nat>)
    | RequestFailed(id: string, maybeCode: Option<nat>, error: string)
    | RequestAbandoned(id: string, error: string)

  datatype Core = Core(active: map<string, Active>, recent: seq<Row>, limit: nat, metrics: Store)

  /** Output tokens handed to the session history. */
  datatype Emission = Emission(session: Option<string>, stamp: nat, tokens: nat)

  datatype Applied = Applied(core: Core, emission: Option<Emission>)

  function Quiet(core: Core): Applied {
    Applied(core, None)
  }

  // ---------------------------------------------------------------- pieces of an event

  const NOT_GENERATING: Generation := Generation(None, false, None)
  const NO_MARKS: Marks := Marks(None, None, None, None)

  function Begun(session: Option<string>, endpoint: Endpoint, now: Now): Active {
    Active(session, endpoint, NO_MARKS, now.mono, NOT_GENERATING, Started, 0, 0, None, None, NO_TIMERS)
  }

  function Progressed(g: Generation, output: Option<nat>, bytes: nat, now: Now): Generation {
    if output.GetOr(0) > 0 then
      if !g.counting then Generation(Some(now.wall), true, None)
      else if g.started.Some? then g.(finished := Some(now.wall))
      else g
    else if g.counting || bytes == 0 then g
    else if g.started.None? then g.(started := Some(now.wall), finished := None)
    else g.(finished := Some(now.wall))
  }

  function FindRow(recent: seq<Row>, id: string): (k: Option<nat>)
    ensures k.Some? ==> k.value < |recent| && recent[k.value].id == id
    ensures k.Some? ==> forall j :: 0 <= j < k.value ==> recent[j].id != id
    ensures k.None? ==> forall j :: 0 <= j < |recent| ==> recent[j].id != id
  {
    if recent == [] then None
    else if recent[0].id == id then Some(0)
    else match FindRow(recent[1..], id)
      case Some(k) => Some(k + 1)
      case None => None
  }

  function ActiveReport(a: Active, bytes: nat, chunks: nat, input: Option<nat>, output: Option<nat>, now: Now): Active {
    var total := FirstOf(output, a.output);
    a.(bytes := a.bytes + bytes, chunks := a.chunks + chunks, input := FirstOf(input, a.input), output := total,
       generation := Progressed(a.generation, total, bytes, now))
  }

  function RowReport(row: Row, bytes: nat, chunks: nat, input: Option<nat>, output: Option<nat>, now: Now): Row {
    var total := FirstOf(output, row.output);
    row.(bytes := row.bytes + bytes, chunks := row.chunks + chunks, input := FirstOf(input, row.input), output := total,
         generation := Progressed(row.generation, total, bytes, now))
  }

  /** A late report hands on what it adds to the row's output count. */
  function LateEmission(before: Row, after: Row): Option<Emission> {
    var was, is_ := before.output.GetOr(0), after.output.GetOr(0);
    if is_ > was then Some(Emission(after.session, after.generation.finished.GetOr(after.finishedAt), is_ - was))
    else None
  }

  function LateReport(c: Core, id: string, bytes: nat, chunks: nat, input: Option<nat>, output: Option<nat>,
                      now: Now): Applied {
    match FindRow(c.recent, id)
    case None => Quiet(c)
    case Some(k) =>
      var row := RowReport(c.recent[k], bytes, chunks, input, output, now);
      Applied(c.(recent := c.recent[k := row]), LateEmission(c.recent[k], row))
  }

  function Put(c: Core, id: string, a: Active): Core {
    c.(active := c.active[id := a])
  }

  // ---------------------------------------------------------------- ends of a request

  /** A failure or an abandonment of the request is on record. */
  predicate EndedBadly(recent: seq<Row>, id: string) {
    exists k :: 0 <= k < |recent| && recent[k].id == id && (recent[k].status == Failed || recent[k].status == Abandoned)
  }

  /** It is not turned into a success. */
  predicate Overruled(c: Core, id: string, status: Status) {
    status == Completed && EndedBadly(c.recent, id)
  }

  lemma OnlyCompletionsOverruled(c: Core, id: string, status: Status)
    ensures Overruled(c, id, status) ==> status == Completed
  {}

  function Ended(id: string, a: Active, status: Status, code: Option<nat>, input: Option<nat>, output: Option<nat>,
                 error: Option<string>, now: Now): Row {
    var generation := if a.generation.started.Some? then a.generation.(finished := Some(now.wall)) else a.generation;
    Row(id, a.session, a.endpoint, a.marks, generation, status, code, now.wall, a.bytes, a.chunks,
        FirstOf(input, a.input), FirstOf(output, a.output), error)
  }

  lemma EndedHasId(id: string, a: Active, status: Status, code: Option<nat>, input: Option<nat>, output: Option<nat>,
                   error: Option<string>, now: Now)
    ensures var row := Ended(id, a, status, code, input, output, error, now);
      row.id == id && row.output == FirstOf(output, a.output)
  {}

  function FinalEmission(row: Row): Option<Emission> {
    if row.output.GetOr(0) > 0
    then Some(Emission(row.session, row.generation.finished.GetOr(row.finishedAt), row.output.value))
    else None
  }

  function Pushed(recent: seq<Row>, row: Row, limit: nat): seq<Row> {
    var all := [row] + recent;
    if |all| > limit then all[..limit] else all
  }

  function Finish(c: Core, id: string, status: Status, code: Option<nat>, input: Option<nat>, output: Option<nat>,
                  error: Option<string>, now: Now): (r: Applied)
    requires Sized(c.metrics)
    ensures Sized(r.core.metrics) && r.core.limit == c.limit
  {
    if Overruled(c, id, status) then Quiet(c)
    else
      var tracked := id in c.active;
      var a := if tracked then c.active[id] else Begun(None, Messages, now);
      var row := Ended(id, a, status, code, input, output, error, now);
      Applied(Core(c.active - {id}, Pushed(c.recent, row, c.limit), c.limit,
                   if tracked
                   then OnFinished(c.metrics, a.timers, a.startedInstant, a.marks, status, code, now)
                   else c.metrics),
              FinalEmission(row))
  }

  // ---------------------------------------------------------------- one event

  function Phase(c: Core, id: string, a: Active, phase: Status, now: Now): Core {
    var changed := OnPhase(c.metrics, a.timers, a.status, phase, now);
    Put(c, id, a.(status := phase, timers := changed.1)).(metrics := changed.0)
  }

  function Progress(c: Core, id: string, a: Active, bytes: nat, chunks: nat, input: Option<nat>,
                    output: Option<nat>, now: Now): Core {
    var changed := OnProgress(c.metrics, a.timers, a.startedInstant, bytes, now);
    var reported := ActiveReport(a.(status := Streaming, timers := changed.1), bytes, chunks, input, output, now);
    Put(c, id, reported).(metrics := changed.0)
  }

  function Renamed(incoming: Option<string>, model: string): string {
    if incoming.Some? && incoming.value != model then incoming.value + " \U{2192} " + model else model
  }

  /** What the event does to a request that is active. */
  function OnActive(c: Core, e: Event, now: Now): (r: Applied)
    requires Sized(c.metrics) && e.id in c.active
    ensures Sized(r.core.metrics) && r.core.limit == c.limit
  {
    var a := c.active[e.id];
    match e
    case RequestStarted(id, session, endpoint) =>
      Quiet(Put(c, id, Begun(session, endpoint, now)).(metrics := OnStarted(c.metrics, endpoint)))
    case ProviderChosen(id, provider, model) =>
      Quiet(Phase(c, id, a.(marks := a.marks.(provider := Some(provider), model := Some(model))),
                  ProviderSelected, now))
    case ClientTypeResolved(id, clientType) => Quiet(Put(c, id, a.(marks := a.marks.(clientType := Some(clientType)))))
    case AccountResolved(id, account) => Quiet(Put(c, id, a.(marks := a.marks.(account := Some(account)))))
    case UpstreamError(_, code) =>
      Quiet(c.(metrics := c.metrics.(upstreamCodes := Bumped(c.metrics.upstreamCodes, Code(code)))))
    case ModelResolved(id, model) =>
      Quiet(Put(c, id, a.(marks := a.marks.(model := Some(Renamed(a.marks.model, model))))))
    case RequestPhase(id, phase) => Quiet(Phase(c, id, a, phase, now))
    case StreamProgress(id, bytes, chunks, input, output) =>
      Quiet(Progress(c, id, a, bytes, chunks, input, output, now))
    case UsageUpdated(id, input, output) => Quiet(Put(c, id, ActiveReport(a, 0, 0, input, output, now)))
    case RequestCompleted(id, code, input, output) => Finish(c, id, Completed, Some(code), input, output, None, now)
    case RequestFailed(id, code, error) => Finish(c, id, Failed, code, None, None, Some(error), now)
    case RequestAbandoned(id, error) => Finish(c, id, Abandoned, None, None, None, Some(error), now)
  }

  function LateClientType(c: Core, id: string, clientType: string): Core {
    match FindRow(c.recent, id)
    case None => c
    case Some(k) =>
      var row := c.recent[k];
      c.(recent := c.recent[k := row.(marks := row.marks.(clientType := Some(clientType)))])
  }

  /** What it does otherwise. */
  function OnInactive(c: Core, e: Event, now: Now): (r: Applied)
    requires Sized(c.metrics) && e.id !in c.active
    ensures Sized(r.core.metrics) && r.core.limit == c.limit
  {
    match e
    case RequestStarted(id, session, endpoint) =>
      Quiet(Put(c, id, Begun(session, endpoint, now)).(metrics := OnStarted(c.metrics, endpoint)))
    case ClientTypeResolved(id, clientType) => Quiet(LateClientType(c, id, clientType))
    case StreamProgress(id, bytes, chunks, input, output) => LateReport(c, id, bytes, chunks, input, output, now)
    case UsageUpdated(id, input, output) => LateReport(c, id, 0, 0, input, output, now)
    case RequestCompleted(id, code, input, output) => Finish(c, id, Completed, Some(code), input, output, None, now)
    case RequestFailed(id, code, error) => Finish(c, id, Failed, code, None, None, Some(error), now)
    case _ => Quiet(c)
  }

  function Apply(c: Core, e: Event, now: Now): (r: Applied)
    requires Sized(c.metrics)
    ensures Sized(r.core.metrics) && r.core.limit == c.limit
  {
    if e.id in c.active then OnActive(c, e, now) else OnInactive(c, e, now)
  }

  function Fresh(limit: nat): Core {
    Core(map[], [], limit, EMPTY_STORE)
  }

  /** The event puts a new row for its request on record. */
  predicate AddsRow(c: Core, e: Event) {
    || (e.RequestCompleted? && !Overruled(c, e.id, Completed))
    || e.RequestFailed?
    || (e.RequestAbandoned? && e.id in c.active)
  }

  // ---------------------------------------------------------------- whole runs

  /** An event and when it is applied. */
  datatype Timestamped = At(event: Event, now: Now)

  function After(c: Core, events: seq<Timestamped>): (r: Core)
    requires Sized(c.metrics)
    ensures Sized(r.metrics) && r.limit == c.limit
    decreases |events|
  {
    if events == [] then c else After(Apply(c, events[0].event, events[0].now).core, events[1..])
  }

  lemma {:induction false} AfterOneMore(c: Core, events: seq<Timestamped>, n: nat)
    requires Sized(c.metrics) && n < |events|
    ensures After(c, events[..n + 1]) == Apply(After(c, events[..n]), events[n].event, events[n].now).core
    decreases n
  {
    hide Apply;
    var one := Apply(c, events[0].event, events[0].now).core;
    if n == 0 {
      assert events[..1][1..] == [];
    } else {
      assert events[..n][1..] == events[1..][..n - 1];
      assert events[..n + 1][1..] == events[1..][..n];
      AfterOneMore(one, events[1..], n - 1);
    }
  }
}
