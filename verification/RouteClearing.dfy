/** Clearing an assignment in any rule list, and which built lists a rebuild leaves as they are. */
module RouteClearing {
  import opened Text
  import opened Models
  import opened Grok
  import opened AccountRoutes
  import opened RouteLookup
  import opened RouteLaws

  // ---------------------------------------------------------------- wildcards survive normalisation

  predicate IsWild(c: char) {
    c == '*' || c == '?'
  }

  lemma LiteralHasNone(s: string)
    ensures Literal(s) <==> !exists c :: c in s && IsWild(c)
  {
    if !Literal(s) {
      var i :| 0 <= i < |s| && IsWild(s[i]);
      assert s[i] in s;
    }
  }

  lemma {:induction false} TrimStartKeepsWild(s: string, c: char)
    requires IsWild(c)
    ensures c in TrimStart(s) <==> c in s
  {
    if s != [] && IsSpace(s[0]) {
      TrimStartKeepsWild(s[1..], c);
      assert s == [s[0]] + s[1..];
    }
  }

  lemma {:induction false} TrimEndKeepsWild(s: string, c: char)
    requires IsWild(c)
    ensures c in TrimEnd(s) <==> c in s
  {
    if s != [] && IsSpace(s[|s| - 1]) {
      TrimEndKeepsWild(s[..|s| - 1], c);
      assert s == s[..|s| - 1] + [s[|s| - 1]];
    }
  }

  lemma TrimKeepsWild(s: string, c: char)
    requires IsWild(c)
    ensures c in Trim(s) <==> c in s
  {
    TrimStartKeepsWild(s, c);
    TrimEndKeepsWild(TrimStart(s), c);
  }

  lemma LowerKeepsWild(s: string, c: char)
    requires IsWild(c)
    ensures c in Lower(s) <==> c in s
  {
    hide Lower;
    if c in s {
      var i :| 0 <= i < |s| && s[i] == c;
      assert Lower(s)[i] == c;
    }
    if c in Lower(s) {
      var i :| 0 <= i < |s| && Lower(s)[i] == c;
      assert s[i] == c;
    }
  }

  lemma SizeKeepsWild(s: string, c: char)
    requires IsWild(c)
    ensures c in DropContextSize(s) <==> c in s
  {
    if |DropContextSize(s)| < |s| {
      var tail := s[|s| - 4..];
      assert tail in ["[1m]", "[2m]"];
      assert c !in tail;
      assert s == s[..|s| - 4] + tail;
    }
  }

  lemma {:induction false} SpacelessKeepsWild(s: string, c: char)
    requires IsWild(c)
    ensures c in WithoutSpace(s) <==> c in s
  {
    if s != "" {
      SpacelessKeepsWild(s[1..], c);
      assert s == [s[0]] + s[1..];
    }
  }

  lemma MarkerKeepsWild(s: string, c: char)
    requires IsWild(c)
    ensures c in DropContextMarker(s) <==> c in s
  {
    hide TrimEnd, WithoutSpace, LastOpen;
    if ContextMarker(s).Some? {
      var open := ContextMarker(s).value;
      var inner := s[open + 1..|s| - 1];
      SpacelessKeepsWild(inner, c);
      assert c !in "1mcontext" && c !in "2mcontext";
      assert s == s[..open] + ([s[open]] + inner + [s[|s| - 1]]);
      TrimEndKeepsWild(s[..open], c);
    }
  }

  lemma PrefixesAreLiteral(c: char)
    requires IsWild(c)
    ensures c !in "cursor-plan:" && c !in "cursor-ask:" && c !in "cursor-agent:" && c !in "cursor:" && c !in ""
  {}

  lemma WrapperKeepsWild(s: string, c: char)
    requires IsWild(c)
    ensures c in DropWrapper(s) <==> c in s
  {
    hide IsWild;
    var k := |s| - |DropWrapper(s)|;
    assert s == s[..k] + DropWrapper(s);
    assert k > 0 ==> s[..k] in ["cursor-plan:", "cursor-ask:", "cursor-agent:", "cursor:"];
    PrefixesAreLiteral(c);
  }

  /** Normalisation neither brings in nor takes away a wildcard. */
  lemma NormalizeKeepsWild(m: string)
    ensures Literal(Normalize(m)) <==> Literal(m)
  {
    hide Literal, Trim, Lower, DropContextSize, DropContextMarker, DropWrapper, IsWild;
    var a := Trim(m);
    var b := Lower(a);
    var c := DropContextSize(b);
    var d := DropContextMarker(c);
    var e := DropWrapper(d);
    forall x | IsWild(x) ensures x in Trim(e) <==> x in m {
      TrimKeepsWild(m, x);
      LowerKeepsWild(a, x);
      SizeKeepsWild(b, x);
      MarkerKeepsWild(c, x);
      WrapperKeepsWild(d, x);
      TrimKeepsWild(e, x);
    }
    LiteralHasNone(m);
    LiteralHasNone(Normalize(m));
  }

  // ---------------------------------------------------------------- building and filtering

  lemma {:induction false} KeepingUnique(routes: seq<Rule>, keep: Rule -> bool)
    requires Unique(routes)
    ensures Unique(Keeping(routes, keep))
  {
    if routes != [] {
      var n := |routes| - 1;
      KeepingUnique(routes[..n], keep);
      var before := Keeping(routes[..n], keep);
      forall i | 0 <= i < |before| ensures before[i].model != routes[n].model {
        assert before[i] in routes[..n];
      }
    }
  }

  /** Replacing a wildcard rule by one for the same model replaces it among the wildcard rules. */
  lemma {:induction false} KeepingReplaced(routes: seq<Rule>, k: nat, rule: Rule) returns (j: nat)
    requires k < |routes| && routes[k].model == rule.model && Wildcard(rule)
    ensures var wild := Keeping(routes, Wildcard);
      j < |wild| && wild[j].model == rule.model && Keeping(routes[k := rule], Wildcard) == wild[j := rule]
  {
    hide Wildcard, Keeping;
    var n := |routes| - 1;
    SameModelSameKind(routes[k], rule);
    var before, after := Keeping(routes[..n], Wildcard), routes[k := rule];
    KeepingLast(routes, Wildcard);
    KeepingLast(after, Wildcard);
    if k == n {
      j := |before|;
      assert after[..n] == routes[..n];
      assert (before + [routes[n]])[j := rule] == before + [rule];
    } else {
      j := KeepingReplaced(routes[..n], k, rule);
      assert after[..n] == routes[..n][k := rule];
      var tail := if Wildcard(routes[n]) then [routes[n]] else [];
      assert (before + tail)[j := rule] == before[j := rule] + tail;
    }
  }

  lemma KeepingLast(routes: seq<Rule>, keep: Rule -> bool)
    requires routes != []
    ensures var n := |routes| - 1;
      Keeping(routes, keep) == Keeping(routes[..n], keep) + if keep(routes[n]) then [routes[n]] else []
  {}

  lemma SameModelSameKind(a: Rule, b: Rule)
    requires a.model == b.model
    ensures Wildcard(a) <==> Wildcard(b)
  {}

  lemma {:induction false} KeepingSkips(routes: seq<Rule>, k: nat, rule: Rule)
    requires k < |routes| && routes[k].model == rule.model && !Wildcard(rule)
    ensures Keeping(routes[k := rule], Wildcard) == Keeping(routes, Wildcard)
  {
    hide Wildcard;
    var n := |routes| - 1;
    SameModelSameKind(routes[k], rule);
    if k == n {
      assert routes[k := rule][..n] == routes[..n];
    } else {
      KeepingSkips(routes[..n], k, rule);
      assert routes[k := rule][..n] == routes[..n][k := rule];
    }
  }

  lemma PlaceKeeps(routes: seq<Rule>, rule: Rule)
    requires Unique(routes)
    ensures Keeping(Place(routes, rule), Wildcard)
         == if Wildcard(rule) then Place(Keeping(routes, Wildcard), rule) else Keeping(routes, Wildcard)
  {
    hide Wildcard;
    var wild := Keeping(routes, Wildcard);
    KeepingUnique(routes, Wildcard);
    match Position(routes, rule.model) {
      case None =>
        assert (routes + [rule])[..|routes|] == routes;
        forall i | 0 <= i < |wild| ensures wild[i].model != rule.model {
          assert wild[i] in routes;
        }
      case Some(k) =>
        if Wildcard(rule) {
          var j := KeepingReplaced(routes, k, rule);
          UniquePosition(wild, j);
        } else {
          KeepingSkips(routes, k, rule);
        }
    }
  }

  /** The wildcard rules of what is built are what is built of the wildcard rules. */
  lemma {:induction false} NewKeepsWildcards(rules: seq<Rule>)
    ensures Keeping(New(rules), Wildcard) == New(Keeping(rules, Wildcard))
  {
    hide Literal, Normalize, Trim, Place;
    if rules != [] {
      var n := |rules| - 1;
      NewKeepsWildcards(rules[..n]);
      NewIsUnique(rules[..n]);
      NormalizeKeepsWild(rules[n].model);
      var wild := Keeping(rules[..n], Wildcard);
      if Wildcard(rules[n]) {
        assert (wild + [rules[n]])[..|wild|] == wild;
      } else {
        assert wild + [] == wild;
      }
      if Clean(rules[n]).Some? {
        PlaceKeeps(New(rules[..n]), Clean(rules[n]).value);
      }
    }
  }

  /** Every rule that is built is a rule made clean. */
  lemma {:induction false} NewIsMadeClean(rules: seq<Rule>, k: nat) returns (i: nat)
    requires k < |New(rules)|
    ensures i < |rules| && Clean(rules[i]) == Some(New(rules)[k])
  {
    hide Clean;
    var n := |rules| - 1;
    var before := New(rules[..n]);
    var last := Clean(rules[n]);
    if k < |before| && New(rules)[k] == before[k] {
      i := NewIsMadeClean(rules[..n], k);
    } else {
      i := n;
    }
  }

  lemma {:induction false} UsableIsLast(rules: seq<Rule>, i: nat)
    requires i < |rules| && Clean(rules[i]).Some?
    ensures LastAccount(rules, Clean(rules[i]).value.model).Some?
  {
    hide Clean;
    if i < |rules| - 1 {
      UsableIsLast(rules[..|rules| - 1], i);
    }
  }

  /** Every usable rule leaves a rule for its normalised model. */
  lemma UsableIsBuilt(rules: seq<Rule>, i: nat) returns (k: nat)
    requires i < |rules| && Clean(rules[i]).Some?
    ensures k < |New(rules)| && New(rules)[k].model == Clean(rules[i]).value.model
  {
    hide Clean, New;
    UsableIsLast(rules, i);
    LastWins(rules, Clean(rules[i]).value.model);
    k := Position(New(rules), Clean(rules[i]).value.model).value;
  }

  // ---------------------------------------------------------------- which built lists are settled

  lemma CleanAgain(rule: Rule)
    requires Clean(rule).Some?
    ensures var clean := Clean(rule).value;
      Clean(clean) == Some(clean) <==> Normalize(clean.model) == clean.model
  {
    hide Normalize, Trim;
    TrimTwice(rule.account);
  }

  /** Building a list again changes nothing exactly when one call has normalised the model of every usable rule for
      good. */
  lemma NewSettledExactly(rules: seq<Rule>)
    ensures Settled(New(rules)) <==>
      forall i :: 0 <= i < |rules| && Clean(rules[i]).Some? ==>
        Normalize(Clean(rules[i]).value.model) == Clean(rules[i]).value.model
  {
    hide Clean, New, Normalize;
    NewIsUnique(rules);
    var built := New(rules);
    if Settled(built) {
      forall i | 0 <= i < |rules| && Clean(rules[i]).Some?
        ensures Normalize(Clean(rules[i]).value.model) == Clean(rules[i]).value.model
      {
        var k := UsableIsBuilt(rules, i);
        var j := NewIsMadeClean(rules, k);
        CleanAgain(rules[j]);
      }
    }
    if forall i :: 0 <= i < |rules| && Clean(rules[i]).Some? ==>
         Normalize(Clean(rules[i]).value.model) == Clean(rules[i]).value.model {
      forall k | 0 <= k < |built| ensures Clean(built[k]) == Some(built[k]) {
        var j := NewIsMadeClean(rules, k);
        CleanAgain(rules[j]);
      }
    }
  }

  // ---------------------------------------------------------------- clearing, for any list

  ghost predicate LiteralHits(rule: Rule, candidates: seq<string>) {
    Literal(rule.model) && HitsAny(rule.model, candidates)
  }

  lemma LiteralOutranks(later: Rule, earlier: Rule, candidates: seq<string>)
    ensures Literal(later.model) && !Literal(earlier.model) ==> Outranks(later, earlier, candidates)
    ensures !Literal(later.model) && Literal(earlier.model) ==> !Outranks(later, earlier, candidates)
  {
    hide Literal, FirstHit;
  }

  /** A literal that matches beats every wildcard. */
  lemma {:induction false} LiteralIsPicked(routes: seq<Rule>, candidates: seq<string>)
    ensures var r := Pick(routes, candidates);
      r.Some? && Literal(r.value.model) <==> exists j :: 0 <= j < |routes| && LiteralHits(routes[j], candidates)
  {
    hide Literal, HitsAny, Outranks;
    if routes != [] {
      var n := |routes| - 1;
      var before := routes[..n];
      LiteralIsPicked(before, candidates);
      var best := Pick(before, candidates);
      if best.Some? {
        LiteralOutranks(routes[n], best.value, candidates);
      }
      if exists j :: 0 <= j < |before| && LiteralHits(before[j], candidates) {
        var j :| 0 <= j < |before| && LiteralHits(before[j], candidates);
        assert LiteralHits(routes[j], candidates);
      }
      if exists j :: 0 <= j < |routes| && LiteralHits(routes[j], candidates) {
        var j :| 0 <= j < |routes| && LiteralHits(routes[j], candidates);
        assert j < n ==> LiteralHits(before[j], candidates);
      }
    }
  }

  /** A rule whose normal form names one of these candidates literally. */
  ghost predicate Answering(rule: Rule, candidates: seq<string>) {
    Clean(rule).Some? && LiteralHits(Clean(rule).value, candidates)
  }

  lemma AnsweringIsBuilt(rules: seq<Rule>, candidates: seq<string>)
    ensures (exists i :: 0 <= i < |rules| && Answering(rules[i], candidates))
      <==> exists k :: 0 <= k < |New(rules)| && LiteralHits(New(rules)[k], candidates)
  {
    hide Literal, HitsAny, Clean, New;
    if exists i :: 0 <= i < |rules| && Answering(rules[i], candidates) {
      var i :| 0 <= i < |rules| && Answering(rules[i], candidates);
      var k := UsableIsBuilt(rules, i);
      assert LiteralHits(New(rules)[k], candidates);
    }
    if exists k :: 0 <= k < |New(rules)| && LiteralHits(New(rules)[k], candidates) {
      var k :| 0 <= k < |New(rules)| && LiteralHits(New(rules)[k], candidates);
      var i := NewIsMadeClean(rules, k);
      assert Answering(rules[i], candidates);
    }
  }

  /** Clearing a model in any rule list: its lookup is that of the wildcard rules alone exactly when no rule left in
      place normalises to a literal for one of its candidates; otherwise such a literal answers. */
  lemma ClearLawExactly(routes: seq<Rule>, resolve: Resolver, model: string)
    requires Normalize(model) != "" && Literal(Normalize(model))
    ensures var kept, wild := Kept(routes, resolve, Normalize(model)), New(Keeping(routes, Wildcard));
      var cleared, cs := Assign(routes, resolve, model, None), ResolvedCandidates(resolve, model);
      && (Pick(cleared, cs) == Pick(wild, cs) <==> !exists i :: 0 <= i < |kept| && Answering(kept[i], cs))
      && (Pick(cleared, cs) == Pick(wild, cs) ==> Lookup(cleared, resolve, model) == Lookup(wild, resolve, model))
      && (Pick(cleared, cs) != Pick(wild, cs) ==> Pick(cleared, cs).Some? && Literal(Pick(cleared, cs).value.model))
  {
    hide Normalize, Literal, ResolvedCandidates, HitsAny, New, Answering, Kept, Pick;
    var kept := Kept(routes, resolve, Normalize(model));
    var cleared, cs := New(kept), ResolvedCandidates(resolve, model);
    NothingToTrim();
    assert [] + kept == kept;
    KeptWildcards(routes, resolve, Normalize(model));
    NewKeepsWildcards(kept);
    AnsweringIsBuilt(kept, cs);
    LiteralIsPicked(cleared, cs);
    var wild := Keeping(cleared, Wildcard);
    if Pick(wild, cs).Some? {
      assert Pick(wild, cs).value in wild;
    }
    if !exists k :: 0 <= k < |cleared| && LiteralHits(cleared[k], cs) {
      forall rule | rule in cleared && !Wildcard(rule) ensures !HitsAny(rule.model, cs) {
        var k :| 0 <= k < |cleared| && cleared[k] == rule;
        assert !LiteralHits(cleared[k], cs);
      }
      PickSkips(cleared, Wildcard, cs);
    }
  }
}
