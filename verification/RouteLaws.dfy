/** Editing account routes: what setting and clearing an assignment guarantee for later lookups. */
module RouteLaws {
  import opened Text
  import opened Models
  import opened Grok
  import opened AccountRoutes
  import opened RouteLookup

  function Keeping(routes: seq<Rule>, keep: Rule -> bool): (r: seq<Rule>)
    ensures forall rule :: rule in r <==> rule in routes && keep(rule)
  {
    if routes == [] then []
    else
      var n := |routes| - 1;
      assert routes == routes[..n] + [routes[n]];
      Keeping(routes[..n], keep) + if keep(routes[n]) then [routes[n]] else []
  }

  /** Whether an edit of the normalised model `n` leaves a rule in place. */
  predicate Stays(n: string, equivalents: seq<string>, rule: Rule) {
    if Literal(n) then !Literal(rule.model) || rule.model !in equivalents else rule.model != n
  }

  function Kept(routes: seq<Rule>, resolve: Resolver, n: string): seq<Rule> {
    var equivalents := EquivalentCandidates(resolve, n);
    Keeping(routes, rule => Stays(n, equivalents, rule))
  }

  /** Assign a model to an account, or clear it when none is left after trimming. */
  function Assign(routes: seq<Rule>, resolve: Resolver, model: string, account: Option<string>): seq<Rule> {
    var n := Normalize(model);
    if n == "" then routes
    else
      var selected := Trim(account.GetOr(""));
      New((if selected == "" then [] else [Rule(n, selected)]) + Kept(routes, resolve, n))
  }

  method WithModelAssignment(routes: seq<Rule>, resolve: Resolver, model: string, account: Option<string>)
      returns (edited: seq<Rule>)
    ensures edited == Assign(routes, resolve, model, account)
  {
    hide Normalize, Trim, EquivalentCandidates, Stays;
    var normalized := Normalize(model);
    if normalized == "" {
      return routes;
    }
    var equivalents := EquivalentModels(resolve, normalized);
    var kept := Keeping(routes, rule => Stays(normalized, equivalents, rule));
    var selected := Trim(account.GetOr(""));
    if selected != "" {
      kept := [Rule(normalized, selected)] + kept;
    } else {
      assert [] + kept == kept;
    }
    edited := NewPolicy(kept);
  }

  /** A rule list that building leaves as it is. */
  predicate Settled(routes: seq<Rule>) {
    && Unique(routes)
    && forall i :: 0 <= i < |routes| ==> Clean(routes[i]) == Some(routes[i])
  }

  predicate Wildcard(rule: Rule) {
    !Literal(rule.model)
  }

  lemma {:induction false} NewOfSettled(routes: seq<Rule>)
    requires Settled(routes)
    ensures New(routes) == routes
  {
    hide Clean;
    if routes != [] {
      var n := |routes| - 1;
      NewOfSettled(routes[..n]);
      assert routes == routes[..n] + [routes[n]];
      assert Position(routes[..n], routes[n].model).None?;
    }
  }

  lemma {:induction false} KeepingSettled(routes: seq<Rule>, keep: Rule -> bool)
    requires Settled(routes)
    ensures Settled(Keeping(routes, keep))
  {
    hide Clean;
    if routes != [] {
      var n := |routes| - 1;
      KeepingSettled(routes[..n], keep);
      var before := Keeping(routes[..n], keep);
      forall i | 0 <= i < |before| ensures before[i].model != routes[n].model {
        assert before[i] in routes[..n];
      }
    }
  }

  lemma {:induction false} KeepingAll(routes: seq<Rule>, keep: Rule -> bool)
    requires forall rule :: rule in routes ==> keep(rule)
    ensures Keeping(routes, keep) == routes
  {
    if routes != [] {
      var n := |routes| - 1;
      assert routes == routes[..n] + [routes[n]];
      assert routes[n] in routes;
      KeepingAll(routes[..n], keep);
    }
  }

  lemma {:induction false} KeepingTwice(routes: seq<Rule>, wide: Rule -> bool, narrow: Rule -> bool)
    requires forall rule :: narrow(rule) ==> wide(rule)
    ensures Keeping(Keeping(routes, wide), narrow) == Keeping(routes, narrow)
  {
    if routes != [] {
      var n := |routes| - 1;
      KeepingTwice(routes[..n], wide, narrow);
      var before := Keeping(routes[..n], wide);
      if wide(routes[n]) {
        assert (before + [routes[n]])[..|before|] == before;
      } else {
        assert before + [] == before;
      }
    }
  }

  lemma {:induction false} KeepingFirst(first: Rule, routes: seq<Rule>, keep: Rule -> bool)
    requires !keep(first)
    ensures Keeping([first] + routes, keep) == Keeping(routes, keep)
  {
    var all, n := [first] + routes, |routes|;
    if routes == [] {
      assert all == [first] && all[..0] == [];
    } else {
      assert all[n] == routes[n - 1] && all[..n] == [first] + routes[..n - 1];
      KeepingFirst(first, routes[..n - 1], keep);
      assert Keeping(all, keep) == Keeping(all[..n], keep) + if keep(all[n]) then [all[n]] else [];
    }
  }

  /** Rules that match nothing can be left out. */
  lemma {:induction false} PickSkips(routes: seq<Rule>, keep: Rule -> bool, candidates: seq<string>)
    requires forall rule :: rule in routes && !keep(rule) ==> !HitsAny(rule.model, candidates)
    ensures Pick(Keeping(routes, keep), candidates) == Pick(routes, candidates)
  {
    hide HitsAny, Outranks;
    if routes != [] {
      var n := |routes| - 1;
      assert routes == routes[..n] + [routes[n]];
      PickSkips(routes[..n], keep, candidates);
      var before := Keeping(routes[..n], keep);
      if keep(routes[n]) {
        assert (before + [routes[n]])[..|before|] == before;
      } else {
        assert before + [] == before;
      }
    }
  }

  // ---------------------------------------------------------------- clearing

  lemma {:induction false} BothBases(originals: seq<string>, base: string)
    requires base in originals || base + PREVIEW in originals
    requires StripSuffix(base, PREVIEW).None? || base + PREVIEW in originals
    ensures base in BothPresentations(originals)
  {
    hide EndsWith;
    if originals[0] == base + PREVIEW {
      PreviewStrips(base);
    } else if originals[0] != base || StripSuffix(base, PREVIEW).Some? {
      BothBases(originals[1..], base);
    }
  }

  /** A literal an edit leaves in place matches no candidate of the edited model. */
  lemma StayingLiteralMisses(resolve: Resolver, n: string, rule: Rule)
    requires Literal(n) && Literal(rule.model) && rule.model != ""
    requires Stays(n, EquivalentCandidates(resolve, n), rule)
    ensures !HitsAny(rule.model, ResolvedCandidates(resolve, n))
  {
    hide ResolvedCandidates, Hits, BothPresentations, EndsWith;
    var cs := ResolvedCandidates(resolve, n);
    forall i | 0 <= i < |cs| ensures !Hits(rule.model, cs[i]) {
      HitsMeaning(rule.model, cs[i]);
      if rule.model + PREVIEW == cs[i] {
        BothBases(cs, rule.model);
      }
    }
  }

  lemma CandidatesOfNormal(resolve: Resolver, model: string)
    requires Normalize(Normalize(model)) == Normalize(model)
    ensures ResolvedCandidates(resolve, model) == ResolvedCandidates(resolve, Normalize(model))
  {
    hide Normalize, Aliases, PushAll, Spellings;
  }

  lemma KeptSettled(routes: seq<Rule>, resolve: Resolver, n: string)
    requires Settled(routes)
    ensures Settled(Kept(routes, resolve, n))
  {
    hide EquivalentCandidates, Stays, Settled;
    var equivalents := EquivalentCandidates(resolve, n);
    KeepingSettled(routes, rule => Stays(n, equivalents, rule));
  }

  lemma KeptWildcards(routes: seq<Rule>, resolve: Resolver, n: string)
    requires Literal(n)
    ensures Keeping(Kept(routes, resolve, n), Wildcard) == Keeping(routes, Wildcard)
  {
    hide EquivalentCandidates, Literal;
    var equivalents := EquivalentCandidates(resolve, n);
    KeepingTwice(routes, rule => Stays(n, equivalents, rule), Wildcard);
  }

  /** After clearing a model its lookup is that of the policy's wildcard rules alone. */
  lemma ClearLaw(routes: seq<Rule>, resolve: Resolver, model: string)
    requires Settled(routes)
    requires var n := Normalize(model); n != "" && Literal(n) && Normalize(n) == n
    ensures Lookup(Assign(routes, resolve, model, None), resolve, model)
         == Lookup(Keeping(routes, Wildcard), resolve, model)
  {
    hide Normalize, ResolvedCandidates, EquivalentCandidates, HitsAny, Pick, New, Literal;
    var n := Normalize(model);
    var kept := Kept(routes, resolve, n);
    KeptSettled(routes, resolve, n);
    NewOfSettled(kept);
    NothingToTrim();
    assert [] + kept == kept;
    CandidatesOfNormal(resolve, model);
    var cs := ResolvedCandidates(resolve, n);
    forall rule | rule in kept && !Wildcard(rule) ensures !HitsAny(rule.model, cs) {
      SettledNotEmpty(kept, rule);
      StayingLiteralMisses(resolve, n, rule);
    }
    PickSkips(kept, Wildcard, cs);
    KeptWildcards(routes, resolve, n);
  }

  lemma NothingToTrim()
    ensures Trim("") == ""
  {}

  lemma SettledNotEmpty(routes: seq<Rule>, rule: Rule)
    requires Settled(routes) && rule in routes
    ensures rule.model != ""
  {
    hide Clean;
  }

  // ---------------------------------------------------------------- setting

  /** A literal rule for the id itself beats every other rule. */
  lemma DirectWins(routes: seq<Rule>, candidates: seq<string>, k: nat)
    requires Unique(routes) && k < |routes|
    requires candidates != [] && routes[k].model == candidates[0] && Literal(candidates[0])
    ensures Wins(routes, candidates, k)
  {
    hide Literal;
    HitsMeaning(candidates[0], candidates[0]);
    assert Hits(routes[k].model, candidates[0]);
    assert HitsAny(routes[k].model, candidates);
    assert FirstHit(routes[k].model, candidates) == 0;
  }

  /** Setting, for any rule list: the lookup answers with the last rule that normalises to the model, so it answers
      with the assigned account exactly when no rule left in place normalises to the model under another account. */
  lemma SetLawExactly(routes: seq<Rule>, resolve: Resolver, model: string, account: string)
    requires var n := Normalize(model); n != "" && Literal(n) && Normalize(n) == n && Trim(account) != ""
    ensures var later := LastAccount(Kept(routes, resolve, Normalize(model)), Normalize(model));
      && Lookup(Assign(routes, resolve, model, Some(account)), resolve, model) == Some(later.GetOr(Trim(account)))
      && (Lookup(Assign(routes, resolve, model, Some(account)), resolve, model) == Some(Trim(account))
          <==> later == None || later == Some(Trim(account)))
  {
    hide Normalize, ResolvedCandidates, HitsAny, Literal, New, Clean, Kept, Lookup, LastAccount, Trim;
    var n := Normalize(model);
    var kept, rules := Kept(routes, resolve, n), [Rule(n, Trim(account))] + Kept(routes, resolve, n);
    var built := New(rules);
    CleanOfSelected(n, account);
    LastWins(rules, n);
    LastAfterFirst(Rule(n, Trim(account)), kept);
    NewIsUnique(rules);
    var k := Position(built, n).value;
    assert ResolvedCandidates(resolve, model)[0] == n;
    DirectWins(built, ResolvedCandidates(resolve, model), k);
    LookupIsWinner(built, resolve, model, k);
  }

  lemma CleanOfSelected(n: string, account: string)
    requires n != "" && Normalize(n) == n && Trim(account) != ""
    ensures Clean(Rule(n, Trim(account))) == Some(Rule(n, Trim(account)))
  {
    hide Normalize, IsSpace;
  }

  lemma {:induction false} LastAfterFirst(first: Rule, rest: seq<Rule>)
    requires Clean(first) == Some(first)
    ensures LastAccount([first] + rest, first.model) == Some(LastAccount(rest, first.model).GetOr(first.account))
  {
    hide Clean;
    var rules := [first] + rest;
    if rest == [] {
      assert rules == [first];
    } else {
      assert rules[..|rules| - 1] == [first] + rest[..|rest| - 1];
      LastAfterFirst(first, rest[..|rest| - 1]);
    }
  }

  lemma {:induction false} LastAccountNone(routes: seq<Rule>, model: string)
    requires forall i :: 0 <= i < |routes| ==> Clean(routes[i]) == Some(routes[i]) && routes[i].model != model
    ensures LastAccount(routes, model) == None
  {
    hide Clean;
    if routes != [] {
      LastAccountNone(routes[..|routes| - 1], model);
    }
  }

  lemma KeptHasNot(routes: seq<Rule>, resolve: Resolver, n: string)
    requires Settled(routes) && n != "" && Literal(n) && Normalize(n) == n
    ensures forall i :: 0 <= i < |Kept(routes, resolve, n)| ==> Kept(routes, resolve, n)[i].model != n
  {
    hide Normalize, ResolvedCandidates, Literal, BothPresentations, Settled;
    var cs := ResolvedCandidates(resolve, n);
    assert cs[0] == n;
    assert n in EquivalentCandidates(resolve, n);
    var kept := Kept(routes, resolve, n);
    forall i | 0 <= i < |kept| ensures kept[i].model != n {
      assert kept[i] in kept;
    }
  }

  /** Setting in a settled policy: the lookup answers with the assigned account. */
  lemma SetLaw(routes: seq<Rule>, resolve: Resolver, model: string, account: string)
    requires Settled(routes)
    requires var n := Normalize(model); n != "" && Literal(n) && Normalize(n) == n && Trim(account) != ""
    ensures Lookup(Assign(routes, resolve, model, Some(account)), resolve, model) == Some(Trim(account))
  {
    hide Normalize, Literal, Kept, Lookup, Assign, Trim, LastAccount, Clean;
    var n := Normalize(model);
    KeptSettled(routes, resolve, n);
    KeptHasNot(routes, resolve, n);
    LastAccountNone(Kept(routes, resolve, n), n);
    SetLawExactly(routes, resolve, model, account);
  }

  /** What setting builds, rule by rule. */
  lemma SetBuilds(routes: seq<Rule>, resolve: Resolver, model: string, account: string)
    requires Settled(routes)
    requires var n := Normalize(model); n != "" && Literal(n) && Normalize(n) == n && Trim(account) != ""
    ensures var n := Normalize(model); var built := Assign(routes, resolve, model, Some(account));
      built == [Rule(n, Trim(account))] + Kept(routes, resolve, n) && Settled(built)
  {
    hide Normalize, Literal, Kept, Trim, Clean;
    var n := Normalize(model);
    var kept := Kept(routes, resolve, n);
    KeptSettled(routes, resolve, n);
    KeptHasNot(routes, resolve, n);
    CleanOfSelected(n, account);
    NewOfSettled([Rule(n, Trim(account))] + kept);
  }

  /** Wildcard rules survive both kinds of edit, in order. */
  lemma WildcardsSurvive(routes: seq<Rule>, resolve: Resolver, model: string, account: Option<string>)
    requires Settled(routes)
    requires var n := Normalize(model); n != "" && Literal(n) && Normalize(n) == n
    ensures var built := Assign(routes, resolve, model, account);
      Keeping(built, Wildcard) == Keeping(routes, Wildcard) && Settled(built)
  {
    hide Normalize, Literal, Kept, Trim, Settled;
    var n := Normalize(model);
    var kept := Kept(routes, resolve, n);
    KeptSettled(routes, resolve, n);
    KeptWildcards(routes, resolve, n);
    if Trim(account.GetOr("")) == "" {
      NewOfSettled(kept);
      assert [] + kept == kept;
    } else {
      SetBuilds(routes, resolve, model, account.value);
      KeepingFirst(Rule(n, Trim(account.value)), kept, Wildcard);
    }
  }

  /** Clearing undoes setting: what is left is what clearing alone leaves. */
  lemma ClearUndoesSet(routes: seq<Rule>, resolve: Resolver, model: string, account: string)
    requires Settled(routes)
    requires var n := Normalize(model); n != "" && Literal(n) && Normalize(n) == n && Trim(account) != ""
    ensures Assign(Assign(routes, resolve, model, Some(account)), resolve, model, None)
         == Assign(routes, resolve, model, None)
  {
    hide Normalize, Literal, Trim, Settled, ResolvedCandidates, New, BothPresentations;
    var n := Normalize(model);
    var first, kept := Rule(n, Trim(account)), Kept(routes, resolve, n);
    SetBuilds(routes, resolve, model, account);
    var equivalents := EquivalentCandidates(resolve, n);
    assert ResolvedCandidates(resolve, n)[0] == n;
    var keep := (rule: Rule) => Stays(n, equivalents, rule);
    KeepingFirst(first, kept, keep);
    KeepingAll(kept, keep);
    NothingToTrim();
  }
}
