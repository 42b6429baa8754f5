/** Consulting account routes: the one rule that wins, and its account. */
module RouteLookup {
  import opened Text
  import opened Models
  import opened Grok
  import opened AccountRoutes

  const USIZE_MAX: nat := 0xFFFF_FFFF_FFFF_FFFF

  // ---------------------------------------------------------------- scores

  /** Compared from left to right; `encoded` counts down with the position of the rule. */
  datatype Score = Score(direct: nat, exact: nat, rank: nat, length: nat, encoded: int)

  predicate Less(a: Score, b: Score) {
    || a.direct < b.direct
    || (a.direct == b.direct && (a.exact < b.exact
    || (a.exact == b.exact && (a.rank < b.rank
    || (a.rank == b.rank && (a.length < b.length
    || (a.length == b.length && a.encoded < b.encoded)))))))
  }

  ghost predicate HitsAny(pattern: string, candidates: seq<string>) {
    exists i :: 0 <= i < |candidates| && Hits(pattern, candidates[i])
  }

  ghost function FirstHit(pattern: string, candidates: seq<string>): (k: nat)
    ensures k <= |candidates|
    ensures k < |candidates| ==> Hits(pattern, candidates[k])
    ensures k == |candidates| <==> !HitsAny(pattern, candidates)
  {
    if candidates == [] then 0
    else if Hits(pattern, candidates[0]) then 0
    else
      assert HitsAny(pattern, candidates) ==> HitsAny(pattern, candidates[1..]) by {
        if HitsAny(pattern, candidates) {
          var i :| 0 <= i < |candidates| && Hits(pattern, candidates[i]);
          assert candidates[1..][i - 1] == candidates[i];
        }
      }
      1 + FirstHit(pattern, candidates[1..])
  }

  ghost function ScoreAt(routes: seq<Rule>, candidates: seq<string>, i: nat): Score
    requires i < |routes|
  {
    var model, k := routes[i].model, FirstHit(routes[i].model, candidates);
    Score(if k == 0 && Literal(model) && candidates != [] && model == candidates[0] then 1 else 0,
          if Literal(model) then 1 else 0, |candidates| - k, |model|, USIZE_MAX - i)
  }

  /** The winning rule: it matches, and no other matching rule scores as high. */
  ghost predicate Wins(routes: seq<Rule>, candidates: seq<string>, w: nat) {
    && w < |routes| && HitsAny(routes[w].model, candidates)
    && forall j :: 0 <= j < |routes| && j != w && HitsAny(routes[j].model, candidates) ==>
         Less(ScoreAt(routes, candidates, j), ScoreAt(routes, candidates, w))
  }

  /** An account answers for the candidates: the winner's, or none when nothing matches. */
  ghost predicate Answers(routes: seq<Rule>, candidates: seq<string>, account: Option<string>) {
    match account
    case None => forall j :: 0 <= j < |routes| ==> !HitsAny(routes[j].model, candidates)
    case Some(a) => exists w: nat :: Wins(routes, candidates, w) && a == routes[w].account
  }

  lemma OneWinner(routes: seq<Rule>, candidates: seq<string>, v: nat, w: nat)
    requires Wins(routes, candidates, v) && Wins(routes, candidates, w)
    ensures v == w
  {
    hide HitsAny, ScoreAt;
  }

  // ---------------------------------------------------------------- looking a model up

  method FindHit(pattern: string, candidates: seq<string>) returns (k: nat)
    ensures k == FirstHit(pattern, candidates)
  {
    k := 0;
    while k < |candidates|
      invariant k <= |candidates| && FirstHit(pattern, candidates) == k + FirstHit(pattern, candidates[k..])
    {
      assert candidates[k..][0] == candidates[k] && candidates[k..][1..] == candidates[k + 1..];
      var hit := SandPatternMatches(pattern, candidates[k]);
      if hit {
        return;
      }
      k := k + 1;
    }
  }

  /** Best among the first `n` rules. */
  ghost predicate Leads(routes: seq<Rule>, candidates: seq<string>, n: nat, best: Option<Score>)
    requires n <= |routes| <= USIZE_MAX
  {
    match best
    case None => forall j :: 0 <= j < n ==> !HitsAny(routes[j].model, candidates)
    case Some(score) =>
      var w := USIZE_MAX - score.encoded;
      && 0 <= w < n && score == ScoreAt(routes, candidates, w) && HitsAny(routes[w].model, candidates)
      && forall j :: 0 <= j < n && j != w && HitsAny(routes[j].model, candidates) ==>
           Less(ScoreAt(routes, candidates, j), score)
  }

  /** After a direct match no later rule can win. */
  lemma DirectIsFinal(routes: seq<Rule>, candidates: seq<string>, n: nat, score: Score)
    requires n <= |routes| <= USIZE_MAX && Leads(routes, candidates, n, Some(score)) && score.direct >= 1
    ensures Leads(routes, candidates, |routes|, Some(score))
  {
    hide HitsAny;
  }

  lemma LeadsNothing(routes: seq<Rule>, candidates: seq<string>)
    requires |routes| <= USIZE_MAX
    ensures Leads(routes, candidates, 0, None)
    ensures candidates == [] ==> forall j :: 0 <= j < |routes| ==> !HitsAny(routes[j].model, candidates)
  {}

  lemma LeadsMiss(routes: seq<Rule>, candidates: seq<string>, i: nat, best: Option<Score>)
    requires i < |routes| <= USIZE_MAX && Leads(routes, candidates, i, best)
    requires !HitsAny(routes[i].model, candidates)
    ensures Leads(routes, candidates, i + 1, best)
  {
    hide HitsAny;
  }

  lemma LeadsHit(routes: seq<Rule>, candidates: seq<string>, i: nat, best: Option<Score>)
    requires i < |routes| <= USIZE_MAX && Leads(routes, candidates, i, best)
    requires HitsAny(routes[i].model, candidates)
    ensures var score := ScoreAt(routes, candidates, i);
      Leads(routes, candidates, i + 1, if best.None? || Less(best.value, score) then Some(score) else best)
  {
    hide HitsAny, Literal;
  }

  lemma LeaderWins(routes: seq<Rule>, candidates: seq<string>, best: Option<Score>)
    requires |routes| <= USIZE_MAX && Leads(routes, candidates, |routes|, best)
    ensures best.None? ==> forall j :: 0 <= j < |routes| ==> !HitsAny(routes[j].model, candidates)
    ensures best.Some? ==>
      && 0 <= USIZE_MAX - best.value.encoded < |routes|
      && Wins(routes, candidates, USIZE_MAX - best.value.encoded)
  {
    hide HitsAny, ScoreAt;
  }

  lemma AnswerIsLookup(routes: seq<Rule>, resolve: Resolver, model: string, account: Option<string>)
    requires Answers(routes, ResolvedCandidates(resolve, model), account)
    ensures account == Lookup(routes, resolve, model)
  {
    hide HitsAny, ResolvedCandidates, Lookup, Normalize, Pick, ScoreAt;
    if account.Some? {
      var w: nat :| Wins(routes, ResolvedCandidates(resolve, model), w) && account.value == routes[w].account;
      LookupIsWinner(routes, resolve, model, w);
    } else {
      LookupOfNothing(routes, resolve, model);
    }
  }

  /** The account of the one winning rule, whatever the order of the rules and however many share a model. */
  method AccountForModel(routes: seq<Rule>, resolve: Resolver, model: string) returns (account: Option<string>)
    requires |routes| <= USIZE_MAX
    ensures Answers(routes, ResolvedCandidates(resolve, model), account)
    ensures account == Lookup(routes, resolve, model)
  {
    hide HitsAny, Literal, Leads, ResolvedCandidates, Lookup, Normalize, FirstHit, Pick;
    var candidates := ResolveModel(resolve, model);
    if candidates == [] {
      LeadsNothing(routes, candidates);
      AnswerIsLookup(routes, resolve, model, None);
      return None;
    }
    var best: Option<Score> := None;
    LeadsNothing(routes, candidates);
    var i := 0;
    while i < |routes|
      invariant i <= |routes| && Leads(routes, candidates, i, best)
    {
      var rule := routes[i];
      var k := FindHit(rule.model, candidates);
      if k == |candidates| {
        LeadsMiss(routes, candidates, i, best);
        i := i + 1;
        continue;
      }
      var exact := if Literal(rule.model) then 1 else 0;
      var direct := if k == 0 && exact == 1 && rule.model == candidates[0] then 1 else 0;
      var score := Score(direct, exact, |candidates| - k, |rule.model|, USIZE_MAX - i);
      LeadsHit(routes, candidates, i, best);
      if best.None? || Less(best.value, score) {
        best := Some(score);
      }
      i := i + 1;
      if direct == 1 {
        DirectIsFinal(routes, candidates, i, best.value);
        break;
      }
    }
    LeaderWins(routes, candidates, best);
    assert candidates == ResolvedCandidates(resolve, model);
    if best.Some? {
      account := Some(routes[USIZE_MAX - best.value.encoded].account);
    } else {
      account := None;
    }
    AnswerIsLookup(routes, resolve, model, account);
  }

  // ---------------------------------------------------------------- the same, rule by rule

  /** Whether a matching rule outranks an earlier one. */
  ghost predicate Outranks(later: Rule, earlier: Rule, candidates: seq<string>) {
    Less(ScoreAt([earlier, later], candidates, 0), ScoreAt([earlier, later], candidates, 1))
  }

  ghost function Pick(routes: seq<Rule>, candidates: seq<string>): (r: Option<Rule>)
    ensures r.Some? ==> r.value in routes && HitsAny(r.value.model, candidates)
    ensures r.None? <==> forall j :: 0 <= j < |routes| ==> !HitsAny(routes[j].model, candidates)
  {
    if routes == [] then None
    else
      var last, best := routes[|routes| - 1], Pick(routes[..|routes| - 1], candidates);
      if !HitsAny(last.model, candidates) then best
      else if best.None? || Outranks(last, best.value, candidates) then Some(last)
      else best
  }

  /** What a lookup answers. */
  ghost function Lookup(routes: seq<Rule>, resolve: Resolver, model: string): Option<string> {
    match Pick(routes, ResolvedCandidates(resolve, model))
    case Some(rule) => Some(rule.account)
    case None => None
  }

  lemma LookupOfNothing(routes: seq<Rule>, resolve: Resolver, model: string)
    requires forall j :: 0 <= j < |routes| ==> !HitsAny(routes[j].model, ResolvedCandidates(resolve, model))
    ensures Lookup(routes, resolve, model) == None
  {
    hide HitsAny, ResolvedCandidates;
  }

  lemma ScoreIgnoresOthers(routes: seq<Rule>, candidates: seq<string>, v: nat, w: nat)
    requires v < w < |routes|
    ensures Less(ScoreAt(routes, candidates, v), ScoreAt(routes, candidates, w))
         == Outranks(routes[w], routes[v], candidates)
    ensures !Outranks(routes[w], routes[v], candidates) ==>
      Less(ScoreAt(routes, candidates, w), ScoreAt(routes, candidates, v))
  {
    hide FirstHit, Literal;
  }

  lemma {:induction false} PickWins(routes: seq<Rule>, candidates: seq<string>) returns (w: nat)
    requires Pick(routes, candidates).Some?
    ensures Wins(routes, candidates, w) && routes[w] == Pick(routes, candidates).value
  {
    hide HitsAny, Outranks;
    var n := |routes| - 1;
    var before := routes[..n];
    if Pick(before, candidates).None? {
      w := n;
      assert forall j :: 0 <= j < n ==> routes[j] == before[j];
    } else {
      var v := PickWins(before, candidates);
      SamePrefix(routes, candidates, n);
      ScoreIgnoresOthers(routes, candidates, v, n);
      w := if HitsAny(routes[n].model, candidates) && Outranks(routes[n], routes[v], candidates) then n else v;
      StillWins(routes, candidates, n, v, w);
    }
  }

  lemma SamePrefix(routes: seq<Rule>, candidates: seq<string>, n: nat)
    requires n <= |routes|
    ensures forall j :: 0 <= j < n ==>
      routes[..n][j] == routes[j] && ScoreAt(routes[..n], candidates, j) == ScoreAt(routes, candidates, j)
  {
    hide FirstHit, Literal;
  }

  lemma StillWins(routes: seq<Rule>, candidates: seq<string>, n: nat, v: nat, w: nat)
    requires n == |routes| - 1 && Wins(routes[..n], candidates, v)
    requires forall j :: 0 <= j < n ==>
      routes[..n][j] == routes[j] && ScoreAt(routes[..n], candidates, j) == ScoreAt(routes, candidates, j)
    requires w == n ==>
      HitsAny(routes[n].model, candidates) && Less(ScoreAt(routes, candidates, v), ScoreAt(routes, candidates, n))
    requires w != n ==> w == v
    requires w != n && HitsAny(routes[n].model, candidates) ==>
      Less(ScoreAt(routes, candidates, n), ScoreAt(routes, candidates, v))
    ensures Wins(routes, candidates, w)
  {
    hide HitsAny, ScoreAt;
    forall j | 0 <= j < |routes| && j != w && HitsAny(routes[j].model, candidates)
      ensures Less(ScoreAt(routes, candidates, j), ScoreAt(routes, candidates, w))
    {
      if j < n {
        assert HitsAny(routes[..n][j].model, candidates);
      }
    }
  }

  /** Folding over the rules finds the winner. */
  lemma LookupIsWinner(routes: seq<Rule>, resolve: Resolver, model: string, w: nat)
    requires Wins(routes, ResolvedCandidates(resolve, model), w)
    ensures Lookup(routes, resolve, model) == Some(routes[w].account)
  {
    hide HitsAny, ResolvedCandidates, Pick, ScoreAt;
    var candidates := ResolvedCandidates(resolve, model);
    var v := PickWins(routes, candidates);
    OneWinner(routes, candidates, v, w);
  }
}
