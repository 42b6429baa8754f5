/** What the session table knows of an id, read from the requests alone. */
module SessionChains {
  import opened Text
  import opened Sessions

  /** A request looks its session up and records it. */
  datatype Request = Request(id: string, provider: string, anthropicAlias: bool, now: nat)

  function Served(t: Table, r: Request): Table {
    var (seen, prior) := Find(t, r.id, r.now);
    Store(seen, r.id, Following(prior, r.provider, r.anthropicAlias, r.now))
  }

  function TableAfter(rs: seq<Request>): Table {
    if rs == [] then EMPTY else Served(TableAfter(rs[..|rs| - 1]), rs[|rs| - 1])
  }

  // ---------------------------------------------------------------- said of the requests alone

  /** Where the last request of an id is. */
  function LastOf(rs: seq<Request>, id: string): (p: Option<nat>)
    ensures p.Some? ==> p.value < |rs| && rs[p.value].id == id
  {
    if rs == [] then None
    else if rs[|rs| - 1].id == id then Some(|rs| - 1)
    else LastOf(rs[..|rs| - 1], id)
  }

  /** Every id requested since. */
  function Crowd(rs: seq<Request>, id: string): set<string> {
    if rs == [] || rs[|rs| - 1].id == id then {} else Crowd(rs[..|rs| - 1], id) + {rs[|rs| - 1].id}
  }

  /** The requests of an id that are one session at this time: back to the first one that came more than half an hour
      after the one before it, or after ten thousand other ids. */
  function Chain(rs: seq<Request>, id: string, now: nat): seq<Request>
    decreases |rs|
  {
    match LastOf(rs, id)
    case None => []
    case Some(p) =>
      if |Crowd(rs, id)| >= 10_000 || now > rs[p].now + 1_800_000 then []
      else Chain(rs[..p], id, rs[p].now) + [rs[p]]
  }

  /** The provider the session last went to for a model of its own. */
  function LastNamed(chain: seq<Request>): Option<AliasProvider> {
    if chain == [] then None
    else
      var last := chain[|chain| - 1];
      if last.anthropicAlias then LastNamed(chain[..|chain| - 1])
      else match last.provider
        case "codex" => Some(Codex)
        case "kimi" => Some(Kimi)
        case "cursor" => Some(Cursor)
        case _ => LastNamed(chain[..|chain| - 1])
  }

  function SessionOf(chain: seq<Request>): Option<Session> {
    if chain == [] then None else Some(Session(|chain|, LastNamed(chain), chain[|chain| - 1].now))
  }

  // ---------------------------------------------------------------- who stands behind whom

  function Elements(order: seq<string>): set<string> {
    set x | x in order
  }

  function Behind(order: seq<string>, x: string): set<string> {
    if order == [] then {}
    else if order[0] == x then Elements(order[1..])
    else Behind(order[1..], x)
  }

  lemma {:induction false} BehindWithout(order: seq<string>, id: string, x: string)
    requires x != id
    ensures Behind(Without(order, id), x) == Behind(order, x) - {id}
  {
    hide Elements;
    if order != [] {
      BehindWithout(order[1..], id, x);
      var rest := Without(order[1..], id);
      WithoutElements(order[1..], id);
      if order[0] == id {
        assert Without(order, id) == rest;
      } else {
        assert Without(order, id)[0] == order[0] && Without(order, id)[1..] == rest;
      }
    }
  }

  lemma WithoutElements(order: seq<string>, id: string)
    ensures Elements(Without(order, id)) == Elements(order) - {id}
  {}

  lemma {:induction false} BehindAppended(order: seq<string>, y: string, x: string)
    ensures Behind(order + [y], x) == if x in order then Behind(order, x) + {y} else {}
  {
    if order == [] {
      assert [y][1..] == [];
    } else {
      assert (order + [y])[0] == order[0] && (order + [y])[1..] == order[1..] + [y];
      BehindAppended(order[1..], y, x);
    }
  }

  lemma {:induction false} ManyElements(order: seq<string>)
    requires Distinct(order)
    ensures |Elements(order)| == |order|
  {
    if order != [] {
      ManyElements(order[1..]);
      assert order[0] !in order[1..];
      assert Elements(order) == Elements(order[1..]) + {order[0]};
    }
  }

  lemma {:induction false} FewBehind(order: seq<string>, x: string)
    requires Distinct(order) && x in order
    ensures |Behind(order, x)| < |order|
  {
    if order[0] == x {
      ManyElements(order[1..]);
    } else {
      FewBehind(order[1..], x);
    }
  }

  // ---------------------------------------------------------------- who is in the table

  /** Behind each id stand those requested since; an id that is gone has been followed by ten thousand. */
  ghost predicate RankedOrder(order: seq<string>, rs: seq<Request>) {
    && (forall x :: x in order ==> LastOf(rs, x).Some? && Behind(order, x) == Crowd(rs, x))
    && (forall x :: x !in order && LastOf(rs, x).Some? ==> |Crowd(rs, x)| >= 10_000)
  }

  ghost predicate Ranked(t: Table, rs: seq<Request>) {
    Valid(t) && RankedOrder(t.order, rs)
  }

  lemma OneMoreRequest(rs: seq<Request>, r: Request, x: string)
    ensures LastOf(rs + [r], x) == if r.id == x then Some(|rs|) else LastOf(rs, x)
    ensures Crowd(rs + [r], x) == if r.id == x then {} else Crowd(rs, x) + {r.id}
  {
    assert (rs + [r])[..|rs|] == rs;
  }

  /** A lookup does not change where the id goes when it is stored. */
  lemma FoundAndMoved(t: Table, id: string, now: nat, session: Session)
    requires Valid(t)
    ensures var seen := Find(t, id, now).0;
      && Valid(seen) && Without(seen.order, id) == Without(t.order, id)
      && seen.states[id := session] == t.states[id := session]
  {
    hide Evict, Without, Idle, Distinct;
    FindValid(t, id, now);
    WithoutDistinct(t.order, id);
    WithoutDistinct(Without(t.order, id), id);
    assert (t.states - {id})[id := session] == t.states[id := session];
  }

  lemma ServedIs(t: Table, r: Request)
    requires Valid(t)
    ensures var prior := Find(t, r.id, r.now).1;
      var next := Following(prior, r.provider, r.anthropicAlias, r.now);
      var s, moved := t.states[r.id := next], Without(t.order, r.id) + [r.id];
      && Valid(Served(t, r))
      && Distinct(moved) && (forall x :: x in moved <==> x in s)
      && Served(t, r) == if |moved| <= MAX_SESSIONS then Table(s, moved) else Table(s - {moved[0]}, moved[1..])
  {
    hide Evict, Without, Following, Find, Distinct, Valid, Store;
    var (seen, prior) := Find(t, r.id, r.now);
    var next := Following(prior, r.provider, r.anthropicAlias, r.now);
    FoundAndMoved(t, r.id, r.now, next);
    StoreValid(seen, r.id, next);
    Moved(t, r.id, next);
  }

  lemma MovedBehind(t: Table, rs: seq<Request>, r: Request, x: string)
    requires Ranked(t, rs)
    ensures var moved := Without(t.order, r.id) + [r.id];
      && (x in moved ==> LastOf(rs + [r], x).Some? && Behind(moved, x) == Crowd(rs + [r], x))
      && (x !in moved && LastOf(rs + [r], x).Some? ==> |Crowd(rs + [r], x)| >= 10_000)
  {
    hide Without, LastOf, Crowd, Behind;
    OneMoreRequest(rs, r, x);
    BehindAppended(Without(t.order, r.id), r.id, x);
    if x != r.id {
      BehindWithout(t.order, r.id, x);
      if x !in t.order && LastOf(rs, x).Some? {
        Grows(Crowd(rs, x), r.id);
      }
    }
  }

  lemma Grows(s: set<string>, x: string)
    ensures |s| <= |s + {x}|
  {
    if x in s {
      assert s + {x} == s;
    }
  }

  lemma FrontGone(order: seq<string>, rs: seq<Request>)
    requires RankedOrder(order, rs) && Distinct(order) && |order| > 10_000
    ensures RankedOrder(order[1..], rs)
  {
    hide LastOf, Crowd;
    assert order == [order[0]] + order[1..];
    ManyElements(order[1..]);
    assert Behind(order, order[0]) == Elements(order[1..]);
    forall x | x in order[1..] ensures LastOf(rs, x).Some? && Behind(order[1..], x) == Crowd(rs, x) {
      assert x in order && x != order[0];
    }
  }

  lemma ServedRanked(t: Table, rs: seq<Request>, r: Request)
    requires Ranked(t, rs)
    ensures Ranked(Served(t, r), rs + [r])
  {
    hide Without, LastOf, Crowd, Find, Following, Served, Behind, Distinct, RankedOrder;
    ServedIs(t, r);
    var moved := Without(t.order, r.id) + [r.id];
    AllMovedBehind(t, rs, r);
    if |moved| > MAX_SESSIONS {
      FrontGone(moved, rs + [r]);
    }
  }

  lemma AllMovedBehind(t: Table, rs: seq<Request>, r: Request)
    requires Ranked(t, rs)
    ensures RankedOrder(Without(t.order, r.id) + [r.id], rs + [r])
  {
    hide Without, LastOf, Crowd, Behind, Ranked;
    var moved := Without(t.order, r.id) + [r.id];
    forall x
      ensures x in moved ==> LastOf(rs + [r], x).Some? && Behind(moved, x) == Crowd(rs + [r], x)
      ensures x !in moved && LastOf(rs + [r], x).Some? ==> |Crowd(rs + [r], x)| >= 10_000
    {
      MovedBehind(t, rs, r, x);
    }
  }

  lemma {:induction false} TableRanked(rs: seq<Request>)
    ensures Ranked(TableAfter(rs), rs)
  {
    hide Served, Ranked;
    if rs == [] {
      EmptyRanked();
    } else {
      var n := |rs| - 1;
      TableRanked(rs[..n]);
      assert rs == rs[..n] + [rs[n]];
      ServedRanked(TableAfter(rs[..n]), rs[..n], rs[n]);
    }
  }

  lemma EmptyRanked()
    ensures Ranked(EMPTY, [])
  {}

  lemma StandsWithFew(t: Table, rs: seq<Request>, x: string)
    requires Ranked(t, rs)
    ensures x in t.states <==> LastOf(rs, x).Some? && |Crowd(rs, x)| < 10_000
  {
    hide LastOf, Crowd, Behind;
    if x in t.order {
      FewBehind(t.order, x);
    }
  }

  // ---------------------------------------------------------------- what it knows of them

  ghost predicate Known(t: Table, rs: seq<Request>, id: string) {
    match LastOf(rs, id)
    case None => id !in t.states
    case Some(p) => id in t.states ==> Some(t.states[id]) == SessionOf(Chain(rs[..p], id, rs[p].now) + [rs[p]])
  }

  lemma FindIsChain(t: Table, rs: seq<Request>, id: string, now: nat)
    requires Ranked(t, rs) && Known(t, rs, id)
    ensures Find(t, id, now).1 == SessionOf(Chain(rs, id, now))
  {
    hide Crowd, Ranked, LastNamed, LastOf;
    StandsWithFew(t, rs, id);
  }

  lemma FollowingIsSession(chain: seq<Request>, r: Request)
    ensures Some(Following(SessionOf(chain), r.provider, r.anthropicAlias, r.now)) == SessionOf(chain + [r])
  {
    assert (chain + [r])[..|chain|] == chain;
  }

  lemma ServedKnown(t: Table, rs: seq<Request>, r: Request, id: string)
    requires Ranked(t, rs) && Known(t, rs, id)
    ensures Known(Served(t, r), rs + [r], id)
  {
    hide Crowd, Ranked, LastOf, Find, Following, Chain, SessionOf, Served, Without;
    OneMoreRequest(rs, r, id);
    RankedValid(t, rs);
    ServedIs(t, r);
    if r.id == id {
      FindIsChain(t, rs, id, r.now);
      FollowingIsSession(Chain(rs, id, r.now), r);
      assert (rs + [r])[..|rs|] == rs && (rs + [r])[|rs|] == r;
    } else if LastOf(rs, id).Some? {
      var p := LastOf(rs, id).value;
      assert (rs + [r])[..p] == rs[..p] && (rs + [r])[p] == rs[p];
    }
  }

  lemma RankedValid(t: Table, rs: seq<Request>)
    requires Ranked(t, rs)
    ensures Valid(t)
  {}

  lemma {:induction false} TableKnows(rs: seq<Request>, id: string)
    ensures Known(TableAfter(rs), rs, id)
  {
    hide Served, Ranked, Known;
    if rs == [] {
      NothingKnown(id);
    } else {
      var n := |rs| - 1;
      TableKnows(rs[..n], id);
      TableRanked(rs[..n]);
      assert rs == rs[..n] + [rs[n]];
      ServedKnown(TableAfter(rs[..n]), rs[..n], rs[n], id);
    }
  }

  lemma NothingKnown(id: string)
    ensures Known(EMPTY, [], id)
  {}

  /** An id is in the table exactly if it was requested and fewer than ten thousand other ids were requested since. */
  lemma StaysWithTheRecent(rs: seq<Request>, id: string)
    ensures id in TableAfter(rs).states <==> LastOf(rs, id).Some? && |Crowd(rs, id)| < 10_000
  {
    hide TableAfter, Ranked, LastOf, Crowd;
    TableRanked(rs);
    StandsWithFew(TableAfter(rs), rs, id);
  }

  /** After any requests of any ids, a lookup finds exactly the chain that is the id's session then: its number is the
      number of requests in the chain, its affinity the last provider one of them named by a model of its own, and it
      was last seen with the last of them. */
  lemma SessionIsItsChain(rs: seq<Request>, id: string, now: nat)
    ensures Find(TableAfter(rs), id, now).1 == SessionOf(Chain(rs, id, now))
  {
    hide TableAfter, Ranked, Known, Find, Chain;
    TableRanked(rs);
    TableKnows(rs, id);
    FindIsChain(TableAfter(rs), rs, id, now);
  }
}
