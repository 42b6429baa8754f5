/** The session table: looked up with an idle limit, recorded with least-recently-recorded eviction. */
module Sessions {
  import opened Text

  const SESSION_IDLE_TTL_MS: nat := 30 * 60 * 1000
  const MAX_SESSIONS: nat := 10_000

  datatype AliasProvider = Codex | Kimi | Cursor

  datatype Session = Session(seqNo: nat, affinity: Option<AliasProvider>, lastSeen: nat)

  datatype Table = Table(states: map<string, Session>, order: seq<string>)

  // ---------------------------------------------------------------- as functions

  function Without(order: seq<string>, id: string): (r: seq<string>)
    ensures forall x :: x in r <==> x in order && x != id
    ensures |r| <= |order|
  {
    if order == [] then [] else (if order[0] == id then [] else [order[0]]) + Without(order[1..], id)
  }

  predicate Idle(session: Session, now: nat) {
    now > session.lastSeen && now - session.lastSeen > SESSION_IDLE_TTL_MS
  }

  /** The live session of an id; an idle one is forgotten. */
  function Find(t: Table, id: string, now: nat): (Table, Option<Session>) {
    if id !in t.states then (t, None)
    else if Idle(t.states[id], now) then (Table(t.states - {id}, Without(t.order, id)), None)
    else (t, Some(t.states[id]))
  }

  function Affinity(provider: string, anthropicAlias: bool, old_: Option<AliasProvider>): Option<AliasProvider> {
    if anthropicAlias then old_
    else if provider == "codex" then Some(Codex)
    else if provider == "kimi" then Some(Kimi)
    else if provider == "cursor" then Some(Cursor)
    else old_
  }

  /** The session a request leaves behind, given what its caller looked up before. */
  function Following(prior: Option<Session>, provider: string, anthropicAlias: bool, now: nat): Session {
    var before := prior.GetOr(Session(0, None, now));
    Session(before.seqNo + 1, Affinity(provider, anthropicAlias, before.affinity), now)
  }

  function Evict(t: Table): Table
    decreases |t.order|
  {
    if |t.order| > MAX_SESSIONS then Evict(Table(t.states - {t.order[0]}, t.order[1..])) else t
  }

  function Store(t: Table, id: string, session: Session): Table {
    Evict(Table(t.states[id := session], Without(t.order, id) + [id]))
  }

  // ---------------------------------------------------------------- the table is kept in order

  ghost predicate Valid(t: Table) {
    && Distinct(t.order)
    && (forall id :: id in t.order <==> id in t.states)
    && |t.order| <= MAX_SESSIONS
  }

  ghost predicate Distinct(order: seq<string>) {
    forall i, j :: 0 <= i < j < |order| ==> order[i] != order[j]
  }

  lemma {:induction false} WithoutDistinct(order: seq<string>, id: string)
    requires Distinct(order)
    ensures Distinct(Without(order, id))
    ensures |Without(order, id)| == if id in order then |order| - 1 else |order|
    ensures id !in order ==> Without(order, id) == order
  {
    if order != [] {
      WithoutDistinct(order[1..], id);
      var rest := Without(order[1..], id);
      assert order[0] !in order[1..];
      if order[0] == id {
        assert [] + rest == rest;
      } else {
        assert order[0] !in rest;
        assert order == [order[0]] + order[1..];
      }
    }
  }

  lemma FindValid(t: Table, id: string, now: nat)
    requires Valid(t)
    ensures Valid(Find(t, id, now).0)
  {
    WithoutDistinct(t.order, id);
  }

  lemma Moved(t: Table, id: string, session: Session)
    requires Valid(t)
    ensures var moved := Without(t.order, id) + [id];
      && Distinct(moved) && |moved| <= MAX_SESSIONS + 1
      && (forall x :: x in moved <==> x in t.states[id := session])
  {
    WithoutDistinct(t.order, id);
  }

  lemma FrontEvicted(t: Table)
    requires Distinct(t.order) && |t.order| == MAX_SESSIONS + 1
    requires forall x :: x in t.order <==> x in t.states
    ensures Evict(t) == Table(t.states - {t.order[0]}, t.order[1..]) && Valid(Evict(t))
  {
    var cut := Table(t.states - {t.order[0]}, t.order[1..]);
    assert Evict(cut) == cut;
    assert t.order == [t.order[0]] + t.order[1..];
  }

  /** What recording does to a valid table: the id moves to the back with its new session, and only if that makes one
      id too many does the front one go, which is never the id just recorded. */
  lemma StoreValid(t: Table, id: string, session: Session)
    requires Valid(t)
    ensures var r, moved := Store(t, id, session), Without(t.order, id) + [id];
      && Valid(r) && id in r.states && r.states[id] == session && r.order != [] && r.order[|r.order| - 1] == id
      && (|moved| <= MAX_SESSIONS ==> r == Table(t.states[id := session], moved))
      && (|moved| > MAX_SESSIONS ==>
            && r == Table(t.states[id := session] - {moved[0]}, moved[1..])
            && moved[0] != id && |r.order| == MAX_SESSIONS)
  {
    hide Evict, Without;
    var moved := Without(t.order, id) + [id];
    var whole := Table(t.states[id := session], moved);
    Moved(t, id, session);
    if |moved| > MAX_SESSIONS {
      FrontEvicted(whole);
      assert moved[0] != moved[|moved| - 1];
    } else {
      NothingEvicted(whole);
    }
  }

  lemma NothingEvicted(t: Table)
    requires |t.order| <= MAX_SESSIONS
    ensures Evict(t) == t
  {}

  // ---------------------------------------------------------------- runs of lookups and records

  datatype Call =
    | Look(id: string, now: nat)
    | Record(id: string, prior: Option<Session>, provider: string, anthropicAlias: bool, now: nat)

  function Done(t: Table, call: Call): Table {
    match call
    case Look(id, now) => Find(t, id, now).0
    case Record(id, prior, provider, alias, now) => Store(t, id, Following(prior, provider, alias, now))
  }

  const EMPTY: Table := Table(map[], [])

  function After(calls: seq<Call>): Table {
    if calls == [] then EMPTY else Done(After(calls[..|calls| - 1]), calls[|calls| - 1])
  }

  /** The position of the last record of an id, counted from one; 0 if there is none. */
  function LastRecord(calls: seq<Call>, id: string): (k: nat)
    ensures k <= |calls|
    ensures k > 0 ==> calls[k - 1].Record? && calls[k - 1].id == id
    ensures forall j :: k <= j < |calls| ==> !(calls[j].Record? && calls[j].id == id)
  {
    if calls == [] then 0
    else
      var n := |calls| - 1;
      if calls[n].Record? && calls[n].id == id then n + 1
      else
        var k := LastRecord(calls[..n], id);
        assert forall j :: 0 <= j < n ==> calls[..n][j] == calls[j];
        k
  }

  /** The order is that of the last records. */
  ghost predicate ByRecency(calls: seq<Call>, order: seq<string>) {
    && (forall i :: 0 <= i < |order| ==> LastRecord(calls, order[i]) > 0)
    && (forall i, j :: 0 <= i < j < |order| ==> LastRecord(calls, order[i]) < LastRecord(calls, order[j]))
  }

  lemma {:induction false} WithoutKeepsOrder(calls: seq<Call>, order: seq<string>, id: string)
    requires ByRecency(calls, order)
    ensures ByRecency(calls, Without(order, id))
  {
    hide LastRecord;
    if order != [] {
      WithoutKeepsOrder(calls, order[1..], id);
      var rest := Without(order[1..], id);
      forall j | 0 <= j < |rest| ensures LastRecord(calls, order[0]) < LastRecord(calls, rest[j]) {
        assert rest[j] in order[1..];
        var k :| 0 <= k < |order[1..]| && order[1..][k] == rest[j];
        assert order[k + 1] == rest[j];
      }
    }
  }

  lemma RecencyGrows(calls: seq<Call>, call: Call, order: seq<string>)
    requires ByRecency(calls, order)
    requires call.Record? ==> call.id !in order
    ensures ByRecency(calls + [call], order)
    ensures call.Record? ==> ByRecency(calls + [call], order + [call.id])
  {
    assert (calls + [call])[..|calls|] == calls;
    forall i | 0 <= i < |order| ensures LastRecord(calls + [call], order[i]) == LastRecord(calls, order[i]) {
      assert order[i] in order;
    }
  }

  /** In every interleaving the table stays valid, and its order is that of the last records. */
  lemma {:induction false} EveryRunIsOrdered(calls: seq<Call>)
    ensures Valid(After(calls)) && ByRecency(calls, After(calls).order)
  {
    hide LastRecord, Find, Store, ByRecency, Valid;
    if calls == [] {
      EmptyIsOrdered();
    } else {
      var n := |calls| - 1;
      EveryRunIsOrdered(calls[..n]);
      assert calls == calls[..n] + [calls[n]];
      CallIsOrdered(calls[..n], calls[n]);
    }
  }

  lemma EmptyIsOrdered()
    ensures Valid(EMPTY) && ByRecency([], EMPTY.order)
  {}

  lemma CallIsOrdered(calls: seq<Call>, call: Call)
    requires Valid(After(calls)) && ByRecency(calls, After(calls).order)
    ensures Valid(Done(After(calls), call)) && ByRecency(calls + [call], Done(After(calls), call).order)
  {
    hide LastRecord, After, Evict, ByRecency;
    var t := After(calls);
    WithoutKeepsOrder(calls, t.order, call.id);
    match call {
      case Look(id, now) =>
        FindValid(t, id, now);
        RecencyGrows(calls, call, Find(t, id, now).0.order);
      case Record(id, prior, provider, alias, now) =>
        var session := Following(prior, provider, alias, now);
        StoreValid(t, id, session);
        RecencyGrows(calls, call, Without(t.order, id));
        RecencyOfTail(calls + [call], Without(t.order, id) + [id]);
    }
  }

  lemma RecencyOfTail(calls: seq<Call>, order: seq<string>)
    requires ByRecency(calls, order) && order != []
    ensures ByRecency(calls, order[1..])
  {
    hide LastRecord;
  }

  /** Eviction is least recently recorded first: in every interleaving, an id a record drops was recorded before
      every id that stays, the table stays full, and the id just recorded stays. */
  lemma EvictsLeastRecent(calls: seq<Call>, call: Call, gone: string)
    requires call.Record? && gone in After(calls).states && gone !in After(calls + [call]).states
    ensures gone != call.id && call.id in After(calls + [call]).states
    ensures |After(calls + [call]).order| == MAX_SESSIONS
    ensures forall id :: id in After(calls + [call]).states ==>
      LastRecord(calls + [call], gone) < LastRecord(calls + [call], id)
  {
    hide LastRecord, Store, After, Without, ByRecency, Following, Find, Valid;
    var t := After(calls);
    EveryRunIsOrdered(calls);
    AfterOneMore(calls, call);
    StoreDrops(t, call.id, Following(call.prior, call.provider, call.anthropicAlias, call.now), gone);
    WithoutKeepsOrder(calls, t.order, call.id);
    var moved := Without(t.order, call.id) + [call.id];
    RecencyGrows(calls, call, Without(t.order, call.id));
    forall id | id in moved[1..] ensures LastRecord(calls + [call], gone) < LastRecord(calls + [call], id) {
      FirstIsOldest(calls + [call], moved, id);
    }
  }

  lemma StoreDrops(t: Table, id: string, session: Session, gone: string)
    requires Valid(t) && gone in t.states && gone !in Store(t, id, session).states
    ensures var r, moved := Store(t, id, session), Without(t.order, id) + [id];
      && gone != id && id in r.states && |r.order| == MAX_SESSIONS && gone == moved[0]
      && forall x :: x in r.states ==> x in moved[1..]
  {
    hide Store, Without;
    StoreValid(t, id, session);
  }

  lemma FirstIsOldest(calls: seq<Call>, order: seq<string>, id: string)
    requires ByRecency(calls, order) && order != [] && id in order[1..]
    ensures LastRecord(calls, order[0]) < LastRecord(calls, id)
  {
    hide LastRecord;
    var k :| 0 <= k < |order[1..]| && order[1..][k] == id;
    assert order[k + 1] == id;
  }

  lemma AfterOneMore(calls: seq<Call>, call: Call)
    ensures After(calls + [call]) == Done(After(calls), call)
  {
    assert (calls + [call])[..|calls|] == calls;
  }

  // ---------------------------------------------------------------- sequence numbers

  function Number(t: Table, id: string): nat {
    if id in t.states then t.states[id].seqNo else 0
  }

  function Later(t: Table, calls: seq<Call>): Table
    decreases |calls|
  {
    if calls == [] then t else Later(Done(t, calls[0]), calls[1..])
  }

  lemma CallOnOther(t: Table, call: Call, id: string)
    requires Valid(t) && !(call.Record? && call.id == id)
    ensures Valid(Done(t, call))
    ensures id in Done(t, call).states ==> id in t.states && Done(t, call).states[id] == t.states[id]
  {
    hide Evict, Without;
    match call {
      case Look(other, now) => FindValid(t, other, now);
      case Record(other, prior, provider, alias, now) =>
        StoreValid(t, other, Following(prior, provider, alias, now));
    }
  }

  lemma {:induction false} CallsOnOthers(t: Table, calls: seq<Call>, id: string)
    requires Valid(t) && forall i :: 0 <= i < |calls| ==> !(calls[i].Record? && calls[i].id == id)
    ensures Valid(Later(t, calls))
    ensures id in Later(t, calls).states ==> id in t.states && Later(t, calls).states[id] == t.states[id]
    decreases |calls|
  {
    hide Done, Valid;
    if calls != [] {
      CallOnOther(t, calls[0], id);
      CallsOnOthers(Done(t, calls[0]), calls[1..], id);
    }
  }

  /** Once a lookup finds nothing, no later one finds anything, by whatever clock, until the id is recorded again. */
  lemma ForgottenStaysAway(t: Table, id: string, now: nat, calls: seq<Call>, later: nat)
    requires Valid(t) && Find(t, id, now).1.None?
    requires forall i :: 0 <= i < |calls| ==> !(calls[i].Record? && calls[i].id == id)
    ensures Find(Later(Find(t, id, now).0, calls), id, later).1.None?
  {
    hide Later, Without;
    FindValid(t, id, now);
    CallsOnOthers(Find(t, id, now).0, calls, id);
  }

  /** A request looks its session up, other calls come in between, and it records what it found: the session's number
      grows by exactly one if and only if the stored number is still the one the lookup saw. */
  lemma GrowsByOneExactly(t: Table, id: string, found: nat, between: seq<Call>, provider: string, alias: bool,
                          recorded: nat)
    requires Valid(t)
    ensures var (seen, prior) := Find(t, id, found); var now := Later(seen, between);
      var after := Store(now, id, Following(prior, provider, alias, recorded));
      && Number(after, id) == Number(seen, id) + 1
      && (Number(after, id) == Number(now, id) + 1 <==> Number(now, id) == Number(seen, id))
  {
    hide Later, Store, Affinity;
    var (seen, prior) := Find(t, id, found);
    FindValid(t, id, found);
    LaterValid(seen, between);
    StoreValid(Later(seen, between), id, Following(prior, provider, alias, recorded));
  }

  lemma {:induction false} LaterValid(t: Table, calls: seq<Call>)
    requires Valid(t)
    ensures Valid(Later(t, calls))
    decreases |calls|
  {
    hide Done, Valid;
    if calls != [] {
      CallValid(t, calls[0]);
      LaterValid(Done(t, calls[0]), calls[1..]);
    }
  }

  lemma CallValid(t: Table, call: Call)
    requires Valid(t)
    ensures Valid(Done(t, call))
  {
    hide Evict, Without;
    match call {
      case Look(id, now) => FindValid(t, id, now);
      case Record(id, prior, provider, alias, now) => StoreValid(t, id, Following(prior, provider, alias, now));
    }
  }

  /** Paired: as long as no other record of the id comes in between, and the session is not dropped meanwhile, the
      number grows by exactly one, from 0 for a session not live. */
  lemma PairedGrowsByOne(t: Table, id: string, found: nat, between: seq<Call>, provider: string, alias: bool,
                         recorded: nat)
    requires Valid(t) && forall i :: 0 <= i < |between| ==> !(between[i].Record? && between[i].id == id)
    requires var seen := Find(t, id, found).0; id in seen.states ==> id in Later(seen, between).states
    ensures var (seen, prior) := Find(t, id, found); var now := Later(seen, between);
      var after := Store(now, id, Following(prior, provider, alias, recorded));
      && Valid(after) && Number(after, id) == Number(now, id) + 1
      && Number(seen, id) == if id in t.states && !Idle(t.states[id], found) then t.states[id].seqNo else 0
  {
    hide Later, Store, Affinity;
    var (seen, prior) := Find(t, id, found);
    FindValid(t, id, found);
    CallsOnOthers(seen, between, id);
    GrowsByOneExactly(t, id, found, between, provider, alias, recorded);
    StoreValid(Later(seen, between), id, Following(prior, provider, alias, recorded));
  }

  /** Two lookups before two records repeat a number. */
  lemma OverlapRepeats(t: Table, id: string, prior: Option<Session>, provider: string, alias: bool, first: nat,
                       second: nat)
    requires Valid(t)
    ensures var once := Store(t, id, Following(prior, provider, alias, first));
      var twice := Store(once, id, Following(prior, provider, alias, second));
      Number(twice, id) == Number(once, id)
  {
    hide Store, Affinity;
    StoreValid(t, id, Following(prior, provider, alias, first));
    StoreValid(Store(t, id, Following(prior, provider, alias, first)), id, Following(prior, provider, alias, second));
  }

  // ---------------------------------------------------------------- the table in place

  class SessionStore {
    var states: map<string, Session>
    var order: seq<string>

    constructor ()
      ensures View() == EMPTY
    {
      states := map[];
      order := [];
    }

    ghost function View(): Table
      reads this
    {
      Table(states, order)
    }

    method Retain(id: string)
      modifies this`order
      ensures order == Without(old(order), id)
    {
      var kept: seq<string> := [];
      for i := 0 to |order|
        invariant order == old(order)
        invariant kept + Without(order[i..], id) == Without(order, id)
      {
        assert order[i..][0] == order[i] && order[i..][1..] == order[i + 1..];
        ghost var rest := Without(order[i + 1..], id);
        if order[i] != id {
          assert kept + ([order[i]] + rest) == kept + [order[i]] + rest;
          kept := kept + [order[i]];
        } else {
          assert [] + rest == rest;
        }
      }
      order := kept;
    }

    method ExistingSession(sessionId: Option<string>, now: nat) returns (session: Option<Session>)
      modifies this
      ensures sessionId.None? ==> session.None? && View() == old(View())
      ensures sessionId.Some? ==> (View(), session) == Find(old(View()), sessionId.value, now)
    {
      if sessionId.None? || sessionId.value !in states {
        return None;
      }
      var id := sessionId.value;
      var state := states[id];
      var idleFor := if now >= state.lastSeen then now - state.lastSeen else 0;
      if idleFor > SESSION_IDLE_TTL_MS {
        states := states - {id};
        Retain(id);
        return None;
      }
      session := Some(state);
    }

    /** `anthropicAlias` is the registry's answer for the normalised model. */
    method RecordSessionRequest(sessionId: Option<string>, prior: Option<Session>, providerName: string,
                                anthropicAlias: bool, now: nat) returns (session: Option<Session>)
      modifies this
      ensures sessionId.None? ==> session.None? && View() == old(View())
      ensures sessionId.Some? ==>
        var next := Following(prior, providerName, anthropicAlias, now);
        session == Some(next) && View() == Store(old(View()), sessionId.value, next)
    {
      if sessionId.None? {
        return None;
      }
      var id := sessionId.value;
      var next := prior.GetOr(Session(0, None, now));
      next := next.(seqNo := next.seqNo + 1, lastSeen := now);
      if !anthropicAlias {
        match providerName {
          case "codex" => next := next.(affinity := Some(Codex));
          case "kimi" => next := next.(affinity := Some(Kimi));
          case "cursor" => next := next.(affinity := Some(Cursor));
          case _ =>
        }
      }
      Retain(id);
      order := order + [id];
      states := states[id := next];
      while |order| > MAX_SESSIONS
        invariant Evict(View()) == Store(old(View()), id, next)
        decreases |order|
      {
        var evict := order[0];
        order := order[1..];
        states := states - {evict};
      }
      session := Some(next);
    }
  }
}
