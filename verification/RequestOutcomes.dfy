/** One outcome per request, and the guard that reports the end of a response body. */
module RequestOutcomes {
  import opened Text
  import opened Metrics
  import opened Monitoring
  import opened MonitorBooks
  import opened MonitorCounts

  predicate Finishes(c: Core, e: Event) {
    && e.id in c.active
    && (e.RequestFailed? || e.RequestAbandoned? || (e.RequestCompleted? && !Overruled(c, e.id, Completed)))
  }

  /** An outcome is counted exactly when an active request goes, and then it is the only one that goes. */
  lemma OutcomeWhenRemoved(c: Core, e: Event, now: Now)
    requires Sized(c.metrics)
    ensures var c1 := Apply(c, e, now).core;
      && Outcomes(c1.metrics) == Outcomes(c.metrics) + One(Finishes(c, e))
      && c1.active.Keys == if Finishes(c, e) then c.active.Keys - {e.id}
                           else if e.RequestStarted? then c.active.Keys + {e.id} else c.active.Keys
  {
    hide Finish, FindRow, OnPhase, OnProgress, OnStarted, ActiveReport, LateReport, Bumped, Overruled, Outcomes;
    hide Renamed;
    match e {
      case RequestCompleted(id, code, input, output) =>
        FinishOutcome(c, id, Completed, Some(code), input, output, None, now);
      case RequestFailed(id, code, error) => FinishOutcome(c, id, Failed, code, None, None, Some(error), now);
      case RequestAbandoned(id, error) => FinishOutcome(c, id, Abandoned, None, None, None, Some(error), now);
      case _ => OtherOutcome(c, e, now);
    }
  }

  lemma FinishOutcome(c: Core, id: string, status: Status, code: Option<nat>, input: Option<nat>, output: Option<nat>,
                      error: Option<string>, now: Now)
    requires Sized(c.metrics) && OutcomeIndex(status).Some?
    ensures var c1 := Finish(c, id, status, code, input, output, error, now).core;
      var counts := id in c.active && !Overruled(c, id, status);
      && Outcomes(c1.metrics) == Outcomes(c.metrics) + One(counts)
      && c1.active.Keys == if counts then c.active.Keys - {id} else c.active.Keys
    ensures status != Completed ==> !Overruled(c, id, status)
  {
    hide Ended, Pushed, FinalEmission, OnFinished, Overruled, Outcomes;
    OnlyCompletionsOverruled(c, id, status);
    if id in c.active {
      FinishedCounts(c.metrics, c.active[id], status, code, now);
    }
  }

  lemma PhaseOutcome(c: Core, id: string, a: Active, phase: Status, now: Now)
    ensures var c1 := Phase(c, id, a, phase, now);
      c1.metrics.outcomes == c.metrics.outcomes && c1.active.Keys == c.active.Keys + {id}
  {
    hide ObservedSince;
  }

  lemma ProgressOutcome(c: Core, id: string, a: Active, bytes: nat, chunks: nat, input: Option<nat>,
                        output: Option<nat>, now: Now)
    ensures var c1 := Progress(c, id, a, bytes, chunks, input, output, now);
      c1.metrics.outcomes == c.metrics.outcomes && c1.active.Keys == c.active.Keys + {id}
  {
    hide ObservedSince, Observed, ActiveReport;
  }

  lemma OtherOutcome(c: Core, e: Event, now: Now)
    requires Sized(c.metrics) && !e.RequestCompleted? && !e.RequestFailed? && !e.RequestAbandoned?
    ensures var c1 := Apply(c, e, now).core;
      && Outcomes(c1.metrics) == Outcomes(c.metrics)
      && c1.active.Keys == if e.RequestStarted? then c.active.Keys + {e.id} else c.active.Keys
  {
    hide FindRow, ActiveReport, RowReport, LateEmission, Bumped, Phase, Progress, Renamed, Finish;
    if e.id in c.active {
      assert c.active.Keys + {e.id} == c.active.Keys;
      var a := c.active[e.id];
      match e {
        case ProviderChosen(id, provider, model) =>
          PhaseOutcome(c, id, a.(marks := a.marks.(provider := Some(provider), model := Some(model))),
                       ProviderSelected, now);
        case RequestPhase(id, phase) => PhaseOutcome(c, id, a, phase, now);
        case StreamProgress(id, bytes, chunks, input, output) =>
          ProgressOutcome(c, id, a, bytes, chunks, input, output, now);
        case _ =>
      }
    }
  }

  /** What a response body may tell its guard before it is dropped. */
  datatype Told = Done(code: nat) | Broke(code: nat, error: string)

  const DISCONNECTED: string := "Client response stream disconnected before completion"

  function Said(id: string, told: Told): Event {
    match told
    case Done(code) => RequestCompleted(id, code, None, None)
    case Broke(code, error) => RequestFailed(id, Some(code), error)
  }

  /** What a guard publishes over its life: its first call, or the abandonment when there was none. */
  function GuardSays(id: string, calls: seq<Told>): Event {
    if calls == [] then RequestAbandoned(id, DISCONNECTED) else Said(id, calls[0])
  }

  class RequestMonitorGuard {
    const id: string
    var armed: bool

    constructor (id: string)
      ensures this.id == id && armed
    {
      this.id := id;
      armed := true;
    }

    method Completed(code: nat) returns (published: seq<Event>)
      modifies this
      ensures !armed && published == if old(armed) then [Said(id, Done(code))] else []
    {
      published := if armed then [RequestCompleted(id, code, None, None)] else [];
      armed := false;
    }

    method Failed(code: nat, error: string) returns (published: seq<Event>)
      modifies this
      ensures !armed && published == if old(armed) then [Said(id, Broke(code, error))] else []
    {
      published := if armed then [RequestFailed(id, Some(code), error)] else [];
      armed := false;
    }

    method Drop() returns (published: seq<Event>)
      ensures published == if armed then [RequestAbandoned(id, DISCONNECTED)] else []
    {
      published := if armed then [RequestAbandoned(id, DISCONNECTED)] else [];
    }
  }

  /** A guard's whole life publishes one event, whatever calls it gets before it is dropped. */
  method GuardLife(id: string, calls: seq<Told>) returns (published: seq<Event>)
    ensures published == [GuardSays(id, calls)]
  {
    var guard := new RequestMonitorGuard(id);
    published := [];
    for i := 0 to |calls|
      invariant guard.id == id && guard.armed == (i == 0)
      invariant published == if i == 0 then [] else [GuardSays(id, calls)]
    {
      var said;
      match calls[i] {
        case Done(code) => said := guard.Completed(code);
        case Broke(code, error) => said := guard.Failed(code, error);
      }
      published := published + said;
    }
    var last := guard.Drop();
    published := published + last;
  }

  /** The guard's one event ends its active request and counts one outcome for it, completed or failed as it was told
      first, abandoned when it was told nothing; unless a completion meets a failure or abandonment already on record
      for the same id. */
  lemma GuardCountsOnce(c: Core, id: string, calls: seq<Told>, now: Now)
    requires Sized(c.metrics)
    ensures var c1 := Apply(c, GuardSays(id, calls), now).core;
      var counts := id in c.active && !(calls != [] && calls[0].Done? && BadlyOnRecord(c, id));
      && c1.metrics.outcomes[0] == c.metrics.outcomes[0] + One(counts && calls != [] && calls[0].Done?)
      && c1.metrics.outcomes[1] == c.metrics.outcomes[1] + One(counts && calls != [] && calls[0].Broke?)
      && c1.metrics.outcomes[2] == c.metrics.outcomes[2] + One(counts && calls == [])
      && c1.active.Keys == if counts then c.active.Keys - {id} else c.active.Keys
  {
    hide Apply, Overruled, Outcomes, BadlyOnRecord;
    StepCounts(c, GuardSays(id, calls), now);
    RecordedBadly(c, id, Completed);
    OutcomeWhenRemoved(c, GuardSays(id, calls), now);
  }
}
