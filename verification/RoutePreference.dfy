/** Which of the matching rules answers a lookup, said without scores. */
module RoutePreference {
  import opened Text
  import opened Models
  import opened Grok
  import opened AccountRoutes
  import opened RouteLookup

  /** The pattern matches this candidate and none before it. */
  ghost predicate MatchesFirst(pattern: string, candidates: seq<string>, k: nat) {
    k < |candidates| && Hits(pattern, candidates[k]) && forall i :: 0 <= i < k ==> !Hits(pattern, candidates[i])
  }

  predicate Plain(pattern: string) {
    '*' !in pattern && '?' !in pattern
  }

  /** Written out as the very id that is looked up. */
  predicate NamesIt(pattern: string, candidates: seq<string>) {
    Plain(pattern) && candidates != [] && pattern == candidates[0]
  }

  /** Of two matching rules, at `i` and at `j`, whose first matches are `k` and `l`, whether the one at `i` comes
      first: the id itself before anything else, then what has no wildcard, then the earlier candidate, then the
      longer pattern, then the earlier rule. */
  predicate Preferred(routes: seq<Rule>, candidates: seq<string>, i: nat, k: nat, j: nat, l: nat)
    requires i < |routes| && j < |routes|
  {
    var p, q := routes[i].model, routes[j].model;
    if NamesIt(p, candidates) != NamesIt(q, candidates) then NamesIt(p, candidates)
    else if Plain(p) != Plain(q) then Plain(p)
    else if k != l then k < l
    else if |p| != |q| then |p| > |q|
    else i < j
  }

  /** The rule at `i` matches first at `k`, and comes before every other matching rule. */
  ghost predicate ComesFirst(routes: seq<Rule>, candidates: seq<string>, i: nat, k: nat) {
    && i < |routes| && MatchesFirst(routes[i].model, candidates, k)
    && forall j: nat, l: nat :: j < |routes| && j != i && MatchesFirst(routes[j].model, candidates, l) ==>
         Preferred(routes, candidates, i, k, j, l)
  }

  lemma {:induction false} FirstHitIsFirst(pattern: string, candidates: seq<string>)
    ensures var k := FirstHit(pattern, candidates); forall i :: 0 <= i < k ==> !Hits(pattern, candidates[i])
  {
    hide Hits;
    if candidates != [] && !Hits(pattern, candidates[0]) {
      FirstHitIsFirst(pattern, candidates[1..]);
      var k := FirstHit(pattern, candidates);
      forall i | 0 <= i < k ensures !Hits(pattern, candidates[i]) {
        assert i > 0 ==> candidates[i] == candidates[1..][i - 1];
      }
    }
  }

  /** The position a score is built from is the one place where the pattern matches first. */
  lemma FirstMatch(pattern: string, candidates: seq<string>, k: nat)
    ensures MatchesFirst(pattern, candidates, k) <==> k == FirstHit(pattern, candidates) && HitsAny(pattern, candidates)
  {
    hide Hits;
    FirstHitIsFirst(pattern, candidates);
    if HitsAny(pattern, candidates) && k < |candidates| && Hits(pattern, candidates[k]) {
      var f := FirstHit(pattern, candidates);
      assert f < |candidates| && Hits(pattern, candidates[f]);
    }
  }

  lemma PlainIsLiteral(pattern: string, candidates: seq<string>)
    ensures Plain(pattern) <==> Literal(pattern)
    ensures NamesIt(pattern, candidates) ==> FirstHit(pattern, candidates) == 0
  {
    hide Hits;
    if NamesIt(pattern, candidates) {
      HitsMeaning(pattern, candidates[0]);
    }
  }

  /** Comparing scores is preferring rules. */
  lemma ScoresPrefer(routes: seq<Rule>, candidates: seq<string>, i: nat, j: nat)
    requires i < |routes| && j < |routes| && i != j
    ensures Less(ScoreAt(routes, candidates, j), ScoreAt(routes, candidates, i)) ==
      Preferred(routes, candidates, i, FirstHit(routes[i].model, candidates),
                j, FirstHit(routes[j].model, candidates))
  {
    hide FirstHit, Literal, Plain;
    PlainIsLiteral(routes[i].model, candidates);
    PlainIsLiteral(routes[j].model, candidates);
  }

  /** The winner of a lookup is the rule that comes first. */
  lemma WinnerComesFirst(routes: seq<Rule>, candidates: seq<string>, w: nat)
    ensures Wins(routes, candidates, w) <==> exists k: nat :: ComesFirst(routes, candidates, w, k)
  {
    hide FirstHit, HitsAny, MatchesFirst, ScoreAt, Less, Preferred;
    if w < |routes| {
      var k := FirstHit(routes[w].model, candidates);
      FirstMatch(routes[w].model, candidates, k);
      forall j: nat, l: nat | j < |routes| && j != w
        ensures MatchesFirst(routes[j].model, candidates, l) <==>
          HitsAny(routes[j].model, candidates) && l == FirstHit(routes[j].model, candidates)
        ensures Less(ScoreAt(routes, candidates, j), ScoreAt(routes, candidates, w)) ==
          Preferred(routes, candidates, w, k, j, FirstHit(routes[j].model, candidates))
      {
        FirstMatch(routes[j].model, candidates, l);
        ScoresPrefer(routes, candidates, w, j);
      }
      if Wins(routes, candidates, w) {
        assert ComesFirst(routes, candidates, w, k);
      }
      forall m: nat | ComesFirst(routes, candidates, w, m) ensures Wins(routes, candidates, w) {
        FirstMatch(routes[w].model, candidates, m);
        forall j | 0 <= j < |routes| && j != w && HitsAny(routes[j].model, candidates)
          ensures Less(ScoreAt(routes, candidates, j), ScoreAt(routes, candidates, w))
        {
          assert MatchesFirst(routes[j].model, candidates, FirstHit(routes[j].model, candidates));
        }
      }
    }
  }

  /** The picked rule is the only one that comes first. */
  lemma PickComesFirst(routes: seq<Rule>, candidates: seq<string>) returns (w: nat, k: nat)
    requires Pick(routes, candidates).Some?
    ensures ComesFirst(routes, candidates, w, k) && routes[w] == Pick(routes, candidates).value
    ensures forall i: nat, m: nat :: ComesFirst(routes, candidates, i, m) ==> i == w
  {
    hide HitsAny, Pick, ComesFirst, Wins;
    w := PickWins(routes, candidates);
    WinnerComesFirst(routes, candidates, w);
    k :| ComesFirst(routes, candidates, w, k);
    forall i: nat, m: nat | ComesFirst(routes, candidates, i, m) ensures i == w {
      WinnerComesFirst(routes, candidates, i);
      OneWinner(routes, candidates, i, w);
    }
  }

  lemma NothingMatches(routes: seq<Rule>, candidates: seq<string>)
    ensures Pick(routes, candidates).None? <==>
      forall i: nat, k: nat :: i < |routes| ==> !MatchesFirst(routes[i].model, candidates, k)
  {
    hide HitsAny, FirstHit, MatchesFirst;
    forall i: nat, k: nat | i < |routes|
      ensures MatchesFirst(routes[i].model, candidates, k) <==>
        k == FirstHit(routes[i].model, candidates) && HitsAny(routes[i].model, candidates)
    {
      FirstMatch(routes[i].model, candidates, k);
    }
    forall i: nat | i < |routes| && HitsAny(routes[i].model, candidates)
      ensures exists k: nat :: MatchesFirst(routes[i].model, candidates, k)
    {
      assert MatchesFirst(routes[i].model, candidates, FirstHit(routes[i].model, candidates));
    }
  }

  /** What a lookup answers: the account of the one rule that comes first, or nothing when no rule matches. */
  lemma LookupPrefers(routes: seq<Rule>, resolve: Resolver, model: string, account: string)
    ensures var candidates := ResolvedCandidates(resolve, model);
      && (Lookup(routes, resolve, model) == Some(account) <==>
           exists i: nat, k: nat :: ComesFirst(routes, candidates, i, k) && routes[i].account == account)
      && (Lookup(routes, resolve, model).None? <==>
           forall i: nat, k: nat :: i < |routes| ==> !MatchesFirst(routes[i].model, candidates, k))
  {
    hide HitsAny, ResolvedCandidates, Pick, MatchesFirst, Preferred, FirstHit;
    var candidates := ResolvedCandidates(resolve, model);
    NothingMatches(routes, candidates);
    if Pick(routes, candidates).Some? {
      var w, k := PickComesFirst(routes, candidates);
      assert routes[w].account == account ==> ComesFirst(routes, candidates, w, k) && routes[w].account == account;
    }
  }
}
