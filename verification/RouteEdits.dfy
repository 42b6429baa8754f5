/** What building and editing a rule list leave in it, rule by rule. */
module RouteEdits {
  import opened Text
  import opened Models
  import opened Grok
  import opened AccountRoutes
  import opened AliasCandidates
  import opened RouteLaws

  // ---------------------------------------------------------------- usable rules

  /** Rules are cleaned to their normalised model and what stands between the blanks of their account. */
  lemma CleanMeaning(rule: Rule, model: string, account: string)
    ensures Clean(rule) == Some(Rule(model, account)) <==>
      && model == Normalize(rule.model) && model != ""
      && account != "" && !IsSpace(account[0]) && !IsSpace(account[|account| - 1])
      && exists a, b :: Blank(a) && Blank(b) && rule.account == a + account + b
  {
    hide Normalize, Trim, IsSpace, Blank;
    var a, b := TrimCuts(rule.account);
    if account != "" && !IsSpace(account[0]) && !IsSpace(account[|account| - 1]) {
      forall x, y | Blank(x) && Blank(y) && rule.account == x + account + y ensures Trim(rule.account) == account {
        TrimOf(x, account, y);
      }
    }
  }

  /** The first usable rule for a normalised model. */
  function FirstFor(rules: seq<Rule>, model: string): (k: Option<nat>)
    ensures k.Some? ==> k.value < |rules| && Clean(rules[k.value]).Some? && Clean(rules[k.value]).value.model == model
  {
    if rules == [] then None
    else
      var n := |rules| - 1;
      var before := FirstFor(rules[..n], model);
      if before.Some? then before
      else if Clean(rules[n]).Some? && Clean(rules[n]).value.model == model then Some(n)
      else None
  }

  function ModelsOf(routes: seq<Rule>): (models: seq<string>)
    ensures |models| == |routes| && forall i :: 0 <= i < |routes| ==> models[i] == routes[i].model
  {
    seq(|routes|, i requires 0 <= i < |routes| => routes[i].model)
  }

  /** These are the models with a usable rule, in the order of the first one. */
  ghost predicate ByFirst(models: seq<string>, rules: seq<Rule>) {
    && (forall model :: model in models <==> FirstFor(rules, model).Some?)
    && (forall i, j :: 0 <= i < j < |models| ==> FirstIndex(rules, models[i]) < FirstIndex(rules, models[j]))
  }

  function FirstIndex(rules: seq<Rule>, model: string): nat {
    FirstFor(rules, model).GetOr(|rules|)
  }

  lemma OneMoreRule(rules: seq<Rule>, n: nat, model: string)
    requires n == |rules| - 1
    ensures FirstFor(rules, model) ==
      if FirstFor(rules[..n], model).Some? then FirstFor(rules[..n], model)
      else if Clean(rules[n]).Some? && Clean(rules[n]).value.model == model then Some(n) else None
  {}

  lemma FirstWithOneMore(rules: seq<Rule>, n: nat, rule: Rule, model: string)
    requires n == |rules| - 1 && Clean(rules[n]) == Some(rule)
    ensures FirstFor(rules, model).Some? <==> FirstFor(rules[..n], model).Some? || model == rule.model
    ensures FirstFor(rules[..n], model).Some? ==> FirstIndex(rules, model) == FirstIndex(rules[..n], model) < n
    ensures FirstFor(rules[..n], model).None? && model == rule.model ==> FirstIndex(rules, model) == n
  {
    hide Clean, FirstFor;
    OneMoreRule(rules, n, model);
  }

  lemma PlacedByFirst(models: seq<string>, rules: seq<Rule>, n: nat, rule: Rule)
    requires n == |rules| - 1 && ByFirst(models, rules[..n]) && Clean(rules[n]) == Some(rule)
    ensures ByFirst(if rule.model in models then models else models + [rule.model], rules)
  {
    hide Clean, FirstFor, FirstIndex;
    var placed := if rule.model in models then models else models + [rule.model];
    forall model ensures model in placed <==> FirstFor(rules, model).Some? {
      FirstWithOneMore(rules, n, rule, model);
    }
    forall i, j | 0 <= i < j < |placed| ensures FirstIndex(rules, placed[i]) < FirstIndex(rules, placed[j]) {
      assert models[i] in models && (j < |models| ==> models[j] in models);
      FirstWithOneMore(rules, n, rule, placed[i]);
      FirstWithOneMore(rules, n, rule, placed[j]);
    }
  }

  lemma ModelsPlaced(routes: seq<Rule>, rule: Rule)
    ensures var models := ModelsOf(routes);
      ModelsOf(Place(routes, rule)) == if rule.model in models then models else models + [rule.model]
  {
    var models, placed := ModelsOf(routes), Place(routes, rule);
    if rule.model in models {
      assert ModelsOf(placed) == models;
    } else {
      assert forall i :: 0 <= i < |routes| ==> models[i] in models;
      assert ModelsOf(placed) == models + [rule.model];
    }
  }

  lemma SkippedByFirst(models: seq<string>, rules: seq<Rule>, n: nat)
    requires n == |rules| - 1 && ByFirst(models, rules[..n]) && Clean(rules[n]).None?
    ensures ByFirst(models, rules)
  {
    hide Clean, FirstFor;
    forall model ensures FirstFor(rules, model) == FirstFor(rules[..n], model) {
      OneMoreRule(rules, n, model);
    }
    forall i | 0 <= i < |models| ensures FirstIndex(rules, models[i]) == FirstIndex(rules[..n], models[i]) {
      assert models[i] in models;
    }
  }

  /** A built list holds one rule for each model that has a usable one, in the order of their first usable rules,
      however often a model comes again. */
  lemma {:induction false} BuiltInOrder(rules: seq<Rule>)
    ensures ByFirst(ModelsOf(New(rules)), rules)
  {
    hide Clean, ByFirst, Place, ModelsOf;
    if rules == [] {
      NothingBuilt();
    } else {
      var n := |rules| - 1;
      BuiltInOrder(rules[..n]);
      match Clean(rules[n]) {
        case None => SkippedByFirst(ModelsOf(New(rules[..n])), rules, n);
        case Some(rule) =>
          ModelsPlaced(New(rules[..n]), rule);
          PlacedByFirst(ModelsOf(New(rules[..n])), rules, n, rule);
      }
    }
  }

  lemma NothingBuilt()
    ensures ByFirst(ModelsOf([]), [])
  {}

  // ---------------------------------------------------------------- candidates in their order

  /** A list without its empty entries and without those seen before. */
  function FirstTimes(ids: seq<string>): seq<string> {
    if ids == [] then []
    else
      var n := |ids| - 1;
      if ids[n] == "" || ids[n] in ids[..n] then FirstTimes(ids[..n]) else FirstTimes(ids[..n]) + [ids[n]]
  }

  lemma {:induction false} FirstTimesHold(ids: seq<string>)
    ensures forall c :: c in FirstTimes(ids) <==> c in ids && c != ""
  {
    if ids != [] {
      var n := |ids| - 1;
      FirstTimesHold(ids[..n]);
      assert ids == ids[..n] + [ids[n]];
    }
  }

  lemma {:induction false} PushedInOrder(ids: seq<string>)
    ensures PushAll([], ids) == FirstTimes(ids)
  {
    hide PushAll;
    if ids == [] {
      NothingPushed([]);
    } else {
      var n := |ids| - 1;
      PushedInOrder(ids[..n]);
      FirstTimesHold(ids[..n]);
      assert ids == ids[..n] + [ids[n]];
      PushAllThen([], ids[..n], [ids[n]]);
      OnePushed(PushAll([], ids[..n]), ids[n]);
    }
  }

  lemma NothingPushed(candidates: seq<string>)
    ensures PushAll(candidates, []) == candidates
  {}

  lemma OnePushed(candidates: seq<string>, x: string)
    ensures PushAll(candidates, [x]) == if x == "" || x in candidates then candidates else candidates + [x]
  {
    assert [x][1..] == [];
    NothingPushed(PushUnique(candidates, x));
  }

  function AllSpellings(sources: seq<string>): seq<string> {
    if sources == [] then [] else RouteCandidates(sources[0]) + AllSpellings(sources[1..])
  }

  lemma {:induction false} SpellingsInOrder(sources: seq<string>)
    ensures Spellings(sources) == AllSpellings(sources)
  {
    hide RouteCandidates;
    if sources != [] {
      SpellingsInOrder(sources[1..]);
    }
  }

  /** The candidates of a model, each where it comes up first: the ids known for it, the Fable names if one is of that
      family, then the route spellings of each of these in turn. */
  lemma CandidatesInOrder(resolve: Resolver, model: string)
    ensures var n := Normalize(model);
      var known := Known(resolve, n) + if AnyFable(Known(resolve, n)) then ["claude-fable-5", "fable"] else [];
      ResolvedCandidates(resolve, model)
        == if n == "" then [] else FirstTimes(known + AllSpellings(FirstTimes(known)))
  {
    hide Normalize, Known, AnyFable, PushAll, Aliases, Spellings, FirstTimes, AllSpellings;
    var n := Normalize(model);
    if n != "" {
      var known := Known(resolve, n) + if AnyFable(Known(resolve, n)) then ["claude-fable-5", "fable"] else [];
      AliasesMeaning(resolve, n);
      PushedInOrder(known);
      SpellingsInOrder(FirstTimes(known));
      PushAllThen([], known, AllSpellings(FirstTimes(known)));
      PushedInOrder(known + AllSpellings(FirstTimes(known)));
    }
  }

  // ---------------------------------------------------------------- edits

  /** An id as it is, without its preview marker, and with it. */
  function Presentations(x: string): set<string> {
    {x, BaseOf(x), BaseOf(x) + "-preview"}
  }

  lemma {:induction false} PresentedIn(xs: seq<string>, c: string)
    ensures c in BothPresentations(xs) <==> exists x :: x in xs && c in [BaseOf(x), BaseOf(x) + "-preview"]
  {
    hide BaseOf;
    if xs != [] {
      PresentedIn(xs[1..], c);
      BaseIs(xs[0]);
      assert xs == [xs[0]] + xs[1..];
    }
  }

  lemma BaseIs(x: string)
    ensures BaseOf(x) == StripSuffix(x, PREVIEW).GetOr(x)
  {}

  /** Two ids name one editing target if one is a presentation of a candidate of the other. */
  lemma EquivalentMeaning(resolve: Resolver, model: string, c: string)
    ensures c in EquivalentCandidates(resolve, model) <==>
      c in ResolvedCandidates(resolve, model)
      || (c != "" && exists x :: x in ResolvedCandidates(resolve, model) && c in Presentations(x))
  {
    hide ResolvedCandidates, BaseOf, BothPresentations;
    PresentedIn(ResolvedCandidates(resolve, model), c);
  }

  predicate Wild(pattern: string) {
    '*' in pattern || '?' in pattern
  }

  lemma WildIs(pattern: string)
    ensures Wild(pattern) <==> !Literal(pattern)
  {}

  /** What an edit of the model `n` removes: a wildcard only that very rule, a plain id every plain rule for a
      presentation of one of its candidates. */
  ghost predicate Edits(resolve: Resolver, n: string, rule: Rule) {
    if Wild(n) then rule.model == n
    else !Wild(rule.model) && exists x :: x in ResolvedCandidates(resolve, n) && rule.model in Presentations(x)
  }

  lemma StaysIsNotEdited(resolve: Resolver, n: string, rule: Rule)
    requires rule.model != ""
    ensures Stays(n, EquivalentCandidates(resolve, n), rule) <==> !Edits(resolve, n, rule)
  {
    hide ResolvedCandidates, EquivalentCandidates, Literal, Wild, BaseOf;
    WildIs(n);
    WildIs(rule.model);
    EquivalentMeaning(resolve, n, rule.model);
    if rule.model in ResolvedCandidates(resolve, n) {
      assert rule.model in Presentations(rule.model);
    }
  }

  /** The rules of `rest` come in the order they have among `routes`. */
  ghost predicate InOrder(rest: seq<Rule>, routes: seq<Rule>) {
    forall i, j, a, b ::
      (0 <= i < j < |rest| && 0 <= a < |routes| && 0 <= b < |routes| && routes[a] == rest[i] && routes[b] == rest[j])
      ==> a < b
  }

  lemma AmongTheFirst(routes: seq<Rule>, rule: Rule, a: nat)
    requires routes != [] && Unique(routes) && rule in routes[..|routes| - 1]
    requires a < |routes| && routes[a] == rule
    ensures a < |routes| - 1
  {}

  lemma {:induction false} KeepingPair(routes: seq<Rule>, keep: Rule -> bool, i: nat, j: nat, a: nat, b: nat)
    requires Unique(routes) && i < j < |Keeping(routes, keep)| && a < |routes| && b < |routes|
    requires routes[a] == Keeping(routes, keep)[i] && routes[b] == Keeping(routes, keep)[j]
    ensures a < b
  {
    var n := |routes| - 1;
    var before := Keeping(routes[..n], keep);
    assert before[i] in routes[..n];
    AmongTheFirst(routes, before[i], a);
    if j < |before| {
      assert before[j] in routes[..n];
      AmongTheFirst(routes, before[j], b);
      KeepingPair(routes[..n], keep, i, j, a, b);
    }
  }

  lemma KeepingInOrder(routes: seq<Rule>, keep: Rule -> bool)
    requires Unique(routes)
    ensures InOrder(Keeping(routes, keep), routes)
  {
    hide Keeping, Unique;
    var rest := Keeping(routes, keep);
    forall i, j, a, b | 0 <= i < j < |rest| && 0 <= a < |routes| && 0 <= b < |routes|
        && routes[a] == rest[i] && routes[b] == rest[j]
      ensures a < b
    {
      KeepingPair(routes, keep, i, j, a, b);
    }
  }

  /** Editing a settled list removes exactly the rules of the target, keeps the others in their order, and puts the new
      rule, if there is an account for it, in front. */
  lemma EditIsExact(routes: seq<Rule>, resolve: Resolver, model: string, account: Option<string>)
    requires Settled(routes)
    requires var n := Normalize(model); n != "" && Normalize(n) == n
    ensures var n, selected := Normalize(model), Trim(account.GetOr(""));
      var front := if selected == "" then [] else [Rule(n, selected)];
      var edited := Assign(routes, resolve, model, account);
      && Settled(edited) && front <= edited
      && (forall rule :: rule in edited[|front|..] <==> rule in routes && !Edits(resolve, n, rule))
      && InOrder(edited[|front|..], routes)
  {
    hide Normalize, Trim, EquivalentCandidates, Settled, Edits, Stays, InOrder, New, Keeping;
    var n, selected := Normalize(model), Trim(account.GetOr(""));
    var kept := Kept(routes, resolve, n);
    var equivalents := EquivalentCandidates(resolve, n);
    var front := if selected == "" then [] else [Rule(n, selected)];
    KeptSettled(routes, resolve, n);
    SettledUnique(routes);
    KeepingInOrder(routes, rule => Stays(n, equivalents, rule));
    forall rule ensures rule in kept <==> rule in routes && !Edits(resolve, n, rule) {
      if rule in routes {
        SettledNotEmpty(routes, rule);
        StaysIsNotEdited(resolve, n, rule);
      }
    }
    if selected == "" {
      assert front + kept == kept;
    } else {
      CleanOfSelected(n, account.value);
      EditedIsGone(kept, resolve, n, routes);
      FrontSettled(Rule(n, selected), kept);
    }
    NewOfSettled(front + kept);
    assert (front + kept)[|front|..] == kept;
  }

  lemma SettledUnique(routes: seq<Rule>)
    requires Settled(routes)
    ensures Unique(routes)
  {}

  lemma EditedIsGone(kept: seq<Rule>, resolve: Resolver, n: string, routes: seq<Rule>)
    requires forall rule :: rule in kept <==> rule in routes && !Edits(resolve, n, rule)
    requires n != "" && Normalize(n) == n
    ensures forall i :: 0 <= i < |kept| ==> kept[i].model != n
  {
    hide Edits, Normalize;
    forall i | 0 <= i < |kept| ensures kept[i].model != n {
      assert kept[i] in kept;
      OwnRuleIsEdited(resolve, n, kept[i]);
    }
  }

  lemma OwnRuleIsEdited(resolve: Resolver, n: string, rule: Rule)
    requires n != "" && Normalize(n) == n
    ensures rule.model == n ==> Edits(resolve, n, rule)
  {
    hide Normalize, ResolvedCandidates, BaseOf, Wild;
    assert ResolvedCandidates(resolve, n)[0] == n;
    assert n in Presentations(n);
  }

  lemma FrontSettled(first: Rule, kept: seq<Rule>)
    requires Settled(kept) && Clean(first) == Some(first)
    requires forall i :: 0 <= i < |kept| ==> kept[i].model != first.model
    ensures Settled([first] + kept)
  {
    hide Clean;
  }
}
