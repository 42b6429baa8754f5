/** What the monitor shows of a request, read from the request's own events. */
module RequestReading {
  import opened Text
  import opened Metrics
  import opened Monitoring
  import opened MonitorCounts

  // ---------------------------------------------------------------- said of the events alone

  /** The last value one of the id's events names. */
  function Last<T>(es: seq<Timestamped>, id: string, says: Event -> Option<T>): Option<T> {
    if es == [] then None
    else
      var n := |es| - 1;
      if es[n].event.id == id && says(es[n].event).Some? then says(es[n].event) else Last(es[..n], id, says)
  }

  function SumOf(es: seq<Timestamped>, id: string, gives: Event -> nat): nat {
    if es == [] then 0
    else
      var n := |es| - 1;
      SumOf(es[..n], id, gives) + if es[n].event.id == id then gives(es[n].event) else 0
  }

  function SaysProvider(e: Event): Option<string> {
    if e.ProviderChosen? then Some(e.provider) else None
  }

  function SaysClient(e: Event): Option<string> {
    if e.ClientTypeResolved? then Some(e.clientType) else None
  }

  function SaysAccount(e: Event): Option<string> {
    if e.AccountResolved? then Some(e.account) else None
  }

  function SaysInput(e: Event): Option<nat> {
    if e.StreamProgress? || e.UsageUpdated? then e.input else None
  }

  function SaysOutput(e: Event): Option<nat> {
    if e.StreamProgress? || e.UsageUpdated? then e.output else None
  }

  /** The phase a request is in once the event has come. */
  function SaysStatus(e: Event): Option<Status> {
    match e
    case ProviderChosen(_, _, _) => Some(ProviderSelected)
    case RequestPhase(_, phase) => Some(phase)
    case StreamProgress(_, _, _, _, _) => Some(Streaming)
    case _ => None
  }

  function GivesBytes(e: Event): nat {
    if e.StreamProgress? then e.bytes else 0
  }

  function GivesChunks(e: Event): nat {
    if e.StreamProgress? then e.chunks else 0
  }

  /** The model chosen with the provider; a different one it resolves to is added behind an arrow. */
  function ModelShown(es: seq<Timestamped>, id: string): Option<string> {
    if es == [] then None
    else
      var n := |es| - 1;
      var e, before := es[n].event, ModelShown(es[..n], id);
      if e.id != id then before
      else match e
        case ProviderChosen(_, _, model) => Some(model)
        case ModelResolved(_, model) =>
          Some(if before.None? || before == Some(model) then model else before.value + " \U{2192} " + model)
        case _ => before
  }

  function StatusOf(es: seq<Timestamped>, id: string): Status {
    Last(es, id, SaysStatus).GetOr(Started)
  }

  /** When the phase the request is in began. */
  function EnteredAt(es: seq<Timestamped>, id: string, start: nat): nat {
    if es == [] then start
    else
      var n := |es| - 1;
      var e := es[n].event;
      if e.id == id && SaysStatus(e).Some? && SaysStatus(e).value != StatusOf(es[..n], id) then es[n].now.mono
      else EnteredAt(es[..n], id, start)
  }

  function FirstByteAt(es: seq<Timestamped>, id: string): Option<nat> {
    if es == [] then None
    else
      var n := |es| - 1;
      var before := FirstByteAt(es[..n], id);
      if before.Some? then before
      else if es[n].event.id == id && GivesBytes(es[n].event) > 0 then Some(es[n].now.mono)
      else None
  }

  predicate Reports(e: Event, id: string) {
    e.id == id && (e.StreamProgress? || e.UsageUpdated?)
  }

  /** When reports came with an output count above zero, their own or the last one named. */
  function CountedTimes(es: seq<Timestamped>, id: string): seq<nat> {
    if es == [] then []
    else
      var n := |es| - 1;
      CountedTimes(es[..n], id) +
      if Reports(es[n].event, id) && Last(es, id, SaysOutput).GetOr(0) > 0 then [es[n].now.wall] else []
  }

  /** When reports came with bytes but no such count. */
  function ByteTimes(es: seq<Timestamped>, id: string): seq<nat> {
    if es == [] then []
    else
      var n := |es| - 1;
      ByteTimes(es[..n], id) +
      if Reports(es[n].event, id) && Last(es, id, SaysOutput).GetOr(0) == 0 && GivesBytes(es[n].event) > 0
      then [es[n].now.wall] else []
  }

  /** Output is measured from the first report that counts it to the last, or as long as none does, by the bytes. */
  function GenerationOf(es: seq<Timestamped>, id: string): Generation {
    var counted := CountedTimes(es, id);
    var times := if counted != [] then counted else ByteTimes(es, id);
    Generation(if times == [] then None else Some(times[0]), counted != [],
               if |times| < 2 then None else Some(times[|times| - 1]))
  }

  /** A request as its start and all events since tell it. */
  function Read(id: string, start: Timestamped, es: seq<Timestamped>): Active
    requires start.event.RequestStarted?
  {
    var status, entered := StatusOf(es, id), EnteredAt(es, id, start.now.mono);
    Active(start.event.session, start.event.endpoint,
           Marks(Last(es, id, SaysProvider), ModelShown(es, id), Last(es, id, SaysClient), Last(es, id, SaysAccount)),
           start.now.mono, GenerationOf(es, id), status, SumOf(es, id, GivesBytes), SumOf(es, id, GivesChunks),
           Last(es, id, SaysInput), Last(es, id, SaysOutput),
           Timers(if status == Queued then Some(entered) else None, if status == Opening then Some(entered) else None,
                  FirstByteAt(es, id)))
  }

  /** Where the id was started last. */
  function LastStart(events: seq<Timestamped>, id: string): (p: Option<nat>)
    ensures p.Some? ==> p.value < |events| && events[p.value].event.RequestStarted? && events[p.value].event.id == id
  {
    if events == [] then None
    else
      var n := |events| - 1;
      if events[n].event.RequestStarted? && events[n].event.id == id then Some(n) else LastStart(events[..n], id)
  }

  // ---------------------------------------------------------------- one event more

  lemma LastOneMore<T>(es: seq<Timestamped>, at: Timestamped, id: string, says: Event -> Option<T>)
    ensures Last(es + [at], id, says)
         == if at.event.id == id && says(at.event).Some? then says(at.event) else Last(es, id, says)
  {
    assert (es + [at])[..|es|] == es;
  }

  lemma SumOneMore(es: seq<Timestamped>, at: Timestamped, id: string, gives: Event -> nat)
    ensures SumOf(es + [at], id, gives) == SumOf(es, id, gives) + if at.event.id == id then gives(at.event) else 0
  {
    assert (es + [at])[..|es|] == es;
  }

  lemma TimesOneMore(es: seq<Timestamped>, at: Timestamped, id: string, start: nat)
    ensures FirstByteAt(es + [at], id) ==
      if FirstByteAt(es, id).Some? then FirstByteAt(es, id)
      else if at.event.id == id && GivesBytes(at.event) > 0 then Some(at.now.mono) else None
    ensures EnteredAt(es + [at], id, start) ==
      if at.event.id == id && SaysStatus(at.event).Some? && SaysStatus(at.event).value != StatusOf(es, id)
      then at.now.mono else EnteredAt(es, id, start)
    ensures ModelShown(es + [at], id) ==
      if at.event.id != id then ModelShown(es, id)
      else match at.event
        case ProviderChosen(_, _, model) => Some(model)
        case ModelResolved(_, model) => Some(Renamed(ModelShown(es, id), model))
        case _ => ModelShown(es, id)
  {
    hide StatusOf;
    assert (es + [at])[..|es|] == es;
  }

  lemma GenerationOneMore(es: seq<Timestamped>, at: Timestamped, id: string)
    ensures GenerationOf(es + [at], id) ==
      if Reports(at.event, id)
      then Progressed(GenerationOf(es, id), Last(es + [at], id, SaysOutput), GivesBytes(at.event), at.now)
      else GenerationOf(es, id)
  {
    hide Last;
    assert (es + [at])[..|es|] == es;
    assert CountedTimes(es + [at], id) == CountedTimes(es, id)
        + if Reports(at.event, id) && Last(es + [at], id, SaysOutput).GetOr(0) > 0 then [at.now.wall] else [];
    assert ByteTimes(es + [at], id) == ByteTimes(es, id)
        + if Reports(at.event, id) && Last(es + [at], id, SaysOutput).GetOr(0) == 0 && GivesBytes(at.event) > 0
          then [at.now.wall] else [];
  }

  /** Everything read once more, with one event of the id. */
  lemma ReadOneMore(id: string, start: Timestamped, es: seq<Timestamped>, at: Timestamped)
    requires start.event.RequestStarted? && at.event.id == id
    ensures var a, e, r := Read(id, start, es), at.event, Read(id, start, es + [at]);
      && r.session == a.session && r.endpoint == a.endpoint && r.startedInstant == a.startedInstant
      && r.marks.provider == FirstOf(SaysProvider(e), a.marks.provider)
      && r.marks.clientType == FirstOf(SaysClient(e), a.marks.clientType)
      && r.marks.account == FirstOf(SaysAccount(e), a.marks.account)
      && r.marks.model == (match e
           case ProviderChosen(_, _, model) => Some(model)
           case ModelResolved(_, model) => Some(Renamed(a.marks.model, model))
           case _ => a.marks.model)
      && r.status == SaysStatus(e).GetOr(a.status)
      && r.bytes == a.bytes + GivesBytes(e) && r.chunks == a.chunks + GivesChunks(e)
      && r.input == FirstOf(SaysInput(e), a.input) && r.output == FirstOf(SaysOutput(e), a.output)
      && r.generation == (if Reports(e, id) then Progressed(a.generation, r.output, GivesBytes(e), at.now)
                          else a.generation)
      && r.timers.firstByteAt == (if a.timers.firstByteAt.None? && GivesBytes(e) > 0 then Some(at.now.mono)
                                  else a.timers.firstByteAt)
      && r.timers.queuedAt == (if r.status == a.status then a.timers.queuedAt
                               else if r.status == Queued then Some(at.now.mono) else None)
      && r.timers.openingAt == (if r.status == a.status then a.timers.openingAt
                                else if r.status == Opening then Some(at.now.mono) else None)
  {
    hide Last, SumOf, EnteredAt, ModelShown, FirstByteAt, GenerationOf, Progressed, Renamed;
    LastOneMore(es, at, id, SaysProvider);
    LastOneMore(es, at, id, SaysClient);
    LastOneMore(es, at, id, SaysAccount);
    LastOneMore(es, at, id, SaysInput);
    LastOneMore(es, at, id, SaysOutput);
    LastOneMore(es, at, id, SaysStatus);
    SumOneMore(es, at, id, GivesBytes);
    SumOneMore(es, at, id, GivesChunks);
    TimesOneMore(es, at, id, start.now.mono);
    GenerationOneMore(es, at, id);
  }

  /** Events of other ids tell nothing. */
  lemma ReadOther(id: string, start: Timestamped, es: seq<Timestamped>, at: Timestamped)
    requires start.event.RequestStarted? && at.event.id != id
    ensures Read(id, start, es + [at]) == Read(id, start, es)
  {
    hide Last, SumOf, EnteredAt, ModelShown, FirstByteAt, GenerationOf, Progressed, Renamed;
    LastOneMore(es, at, id, SaysProvider);
    LastOneMore(es, at, id, SaysClient);
    LastOneMore(es, at, id, SaysAccount);
    LastOneMore(es, at, id, SaysInput);
    LastOneMore(es, at, id, SaysOutput);
    LastOneMore(es, at, id, SaysStatus);
    SumOneMore(es, at, id, GivesBytes);
    SumOneMore(es, at, id, GivesChunks);
    TimesOneMore(es, at, id, start.now.mono);
    GenerationOneMore(es, at, id);
  }

  lemma ReadNothing(id: string, start: Timestamped)
    requires start.event.RequestStarted?
    ensures Read(id, start, []) == Begun(start.event.session, start.event.endpoint, start.now)
  {}

  // ---------------------------------------------------------------- against the monitor

  predicate Stays(c: Core, e: Event) {
    !e.RequestStarted? && !EndsActive(c, e)
  }

  /** An event that keeps the request active changes it as it reads. */
  lemma ActiveReads(c: Core, id: string, start: Timestamped, es: seq<Timestamped>, at: Timestamped)
    requires Sized(c.metrics) && start.event.RequestStarted? && at.event.id == id && Stays(c, at.event)
    requires id in c.active && c.active[id] == Read(id, start, es)
    ensures var c1 := Apply(c, at.event, at.now).core; id in c1.active && c1.active[id] == Read(id, start, es + [at])
  {
    hide Read, Progressed, Renamed, ObservedSince, Observed, Elapsed, Bumped, BadlyOnRecord, Overruled;
    ReadOneMore(id, start, es, at);
    TimersShow(id, start, es);
    if at.event.RequestCompleted? {
      RecordedBadly(c, id, Completed);
    }
  }

  /** Only a request in the phase has its timer running. */
  lemma TimersShow(id: string, start: Timestamped, es: seq<Timestamped>)
    requires start.event.RequestStarted?
    ensures var a := Read(id, start, es);
      && (a.timers.queuedAt.Some? <==> a.status == Queued) && (a.timers.openingAt.Some? <==> a.status == Opening)
  {
    hide Last, EnteredAt, FirstByteAt;
  }

  /** Events of other ids leave a request alone. */
  lemma OthersStay(c: Core, id: string, at: Timestamped)
    requires Sized(c.metrics) && at.event.id != id
    ensures var c1 := Apply(c, at.event, at.now).core;
      (id in c1.active <==> id in c.active) && (id in c.active ==> c1.active[id] == c.active[id])
  {
    hide FindRow, ActiveReport, RowReport, LateEmission, Bumped, OnPhase, OnProgress, Renamed, Code, OnFinished, Ended,
         Pushed, FinalEmission, Begun, Overruled, OnStarted;
  }

  lemma EndedIsGone(c: Core, at: Timestamped)
    requires Sized(c.metrics) && EndsActive(c, at.event)
    ensures at.event.id !in Apply(c, at.event, at.now).core.active
  {
    hide OnFinished, Ended, Pushed, FinalEmission, Begun, Overruled, BadlyOnRecord;
    RecordedBadly(c, at.event.id, Completed);
    RecordedBadly(c, at.event.id, Failed);
    RecordedBadly(c, at.event.id, Abandoned);
  }

  ghost predicate Reads(c: Core, events: seq<Timestamped>, id: string) {
    id in c.active ==>
      && LastStart(events, id).Some?
      && var p := LastStart(events, id).value; c.active[id] == Read(id, events[p], events[p + 1..])
  }

  lemma StepReads(c: Core, events: seq<Timestamped>, id: string, at: Timestamped)
    requires Sized(c.metrics) && Reads(c, events, id)
    ensures Reads(Apply(c, at.event, at.now).core, events + [at], id)
  {
    hide Apply, Read, BadlyOnRecord;
    assert (events + [at])[..|events|] == events;
    if at.event.id != id {
      OthersStay(c, id, at);
      if id in c.active {
        var p := LastStart(events, id).value;
        assert (events + [at])[p + 1..] == events[p + 1..] + [at];
        ReadOther(id, events[p], events[p + 1..], at);
      }
    } else if at.event.RequestStarted? {
      assert (events + [at])[|events| + 1..] == [];
      ReadNothing(id, at);
      StartShown(c, at);
    } else if EndsActive(c, at.event) {
      EndedIsGone(c, at);
    } else if id in c.active {
      var p := LastStart(events, id).value;
      assert (events + [at])[p + 1..] == events[p + 1..] + [at];
      ActiveReads(c, id, events[p], events[p + 1..], at);
    } else {
      StaysGone(c, at);
    }
  }

  lemma StartShown(c: Core, at: Timestamped)
    requires Sized(c.metrics) && at.event.RequestStarted?
    ensures var c1 := Apply(c, at.event, at.now).core;
      && at.event.id in c1.active
      && c1.active[at.event.id] == Begun(at.event.session, at.event.endpoint, at.now)
  {}

  lemma StaysGone(c: Core, at: Timestamped)
    requires Sized(c.metrics) && at.event.id !in c.active && !at.event.RequestStarted?
    ensures at.event.id !in Apply(c, at.event, at.now).core.active
  {
    hide FindRow, RowReport, LateEmission, OnFinished, Ended, Pushed, FinalEmission, Begun, Overruled;
  }

  /** After any run of events, an active request is exactly what its last start and its events since then tell. */
  lemma {:induction false} ActiveIsRead(limit: nat, events: seq<Timestamped>, id: string)
    ensures Reads(After(Fresh(limit), events), events, id)
  {
    hide Apply, Reads, After;
    if events == [] {
      NoneRead(limit, id);
    } else {
      var n := |events| - 1;
      ActiveIsRead(limit, events[..n], id);
      AfterOneMore(Fresh(limit), events, n);
      assert events[..n + 1] == events;
      assert events == events[..n] + [events[n]];
      StepReads(After(Fresh(limit), events[..n]), events[..n], id, events[n]);
    }
  }

  lemma NoneRead(limit: nat, id: string)
    ensures Reads(After(Fresh(limit), []), [], id)
  {
    hide Apply, Read, LastStart;
  }

  // ---------------------------------------------------------------- the row it leaves

  predicate IsEnd(e: Event) {
    e.RequestCompleted? || e.RequestFailed? || e.RequestAbandoned?
  }

  function EndStatus(e: Event): Status
    requires IsEnd(e)
  {
    match e
    case RequestCompleted(_, _, _, _) => Completed
    case RequestFailed(_, _, _) => Failed
    case RequestAbandoned(_, _) => Abandoned
  }

  function EndCode(e: Event): Option<nat> {
    match e
    case RequestCompleted(_, code, _, _) => Some(code)
    case RequestFailed(_, maybe, _) => maybe
    case _ => None
  }

  function EndError(e: Event): Option<string> {
    match e
    case RequestFailed(_, _, error) => Some(error)
    case RequestAbandoned(_, error) => Some(error)
    case _ => None
  }

  /** The row of a request that ends with an event. */
  function RowRead(id: string, start: Timestamped, es: seq<Timestamped>, end: Timestamped): Row
    requires start.event.RequestStarted? && IsEnd(end.event)
  {
    var e, a := end.event, Read(id, start, es);
    Row(id, start.event.session, start.event.endpoint, a.marks,
        if a.generation.started.Some? then a.generation.(finished := Some(end.now.wall)) else a.generation,
        EndStatus(e), EndCode(e), end.now.wall, a.bytes, a.chunks,
        if e.RequestCompleted? && e.input.Some? then e.input else a.input,
        if e.RequestCompleted? && e.output.Some? then e.output else a.output, EndError(e))
  }

  lemma ReadStart(id: string, start: Timestamped, es: seq<Timestamped>)
    requires start.event.RequestStarted?
    ensures Read(id, start, es).session == start.event.session && Read(id, start, es).endpoint == start.event.endpoint
  {}

  lemma EndLeavesRow(c: Core, start: Timestamped, es: seq<Timestamped>, end: Timestamped)
    requires Sized(c.metrics) && c.limit > 0 && EndsActive(c, end.event) && start.event.RequestStarted?
    requires c.active[end.event.id] == Read(end.event.id, start, es)
    ensures var recent := Apply(c, end.event, end.now).core.recent;
      recent != [] && recent[0] == RowRead(end.event.id, start, es, end)
  {
    hide OnFinished, FinalEmission, Overruled, BadlyOnRecord, Read, Begun;
    RecordedBadly(c, end.event.id, EndStatus(end.event));
    ReadStart(end.event.id, start, es);
  }

  /** A request that ends leaves, in front of the recent rows, exactly what its events tell. */
  lemma RowIsRead(limit: nat, events: seq<Timestamped>, end: Timestamped)
    requires limit > 0 && EndsActive(After(Fresh(limit), events), end.event)
    ensures var id := end.event.id; var recent := After(Fresh(limit), events + [end]).recent;
      && LastStart(events, id).Some? && recent != []
      && var p := LastStart(events, id).value; recent[0] == RowRead(id, events[p], events[p + 1..], end)
  {
    hide After, Apply, EndsActive, Read, RowRead, LastStart, Fresh;
    ActiveIsRead(limit, events, end.event.id);
    FreshLimit(limit);
    AfterOneMore(Fresh(limit), events + [end], |events|);
    assert (events + [end])[..|events|] == events && (events + [end])[..|events| + 1] == events + [end];
    EndWasActive(After(Fresh(limit), events), end.event);
    var p := LastStart(events, end.event.id).value;
    EndLeavesRow(After(Fresh(limit), events), events[p], events[p + 1..], end);
  }

  lemma EndWasActive(c: Core, e: Event)
    requires EndsActive(c, e)
    ensures e.id in c.active && IsEnd(e)
  {}

  lemma FreshLimit(limit: nat)
    ensures Fresh(limit).limit == limit && Sized(Fresh(limit).metrics)
  {}
}
