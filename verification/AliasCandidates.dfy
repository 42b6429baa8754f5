/** Which ids a request for a model is known by: the aliases, the Fable names, and the Grok spellings of these. */
module AliasCandidates {
  import opened Text
  import opened Models
  import opened Grok
  import opened AccountRoutes
  import opened RouteLookup

  /** The id without its preview marker. */
  function BaseOf(n: string): string {
    if EndsWith(n, "-preview") then n[..|n| - 8] else n
  }

  /** What the resolver says of the id, and of what it said. */
  function FirstAlias(resolve: Resolver, n: string): Option<string> {
    resolve(BaseOf(n))
  }

  function SecondAlias(resolve: Resolver, n: string): Option<string> {
    match FirstAlias(resolve, n)
    case None => None
    case Some(x) => resolve(x)
  }

  function Listed(id: Option<string>): seq<string> {
    match id
    case None => []
    case Some(x) => [x]
  }

  /** The id, its base, its alias, and the alias of that. */
  function Known(resolve: Resolver, n: string): seq<string> {
    [n, BaseOf(n)] + Listed(FirstAlias(resolve, n)) + Listed(SecondAlias(resolve, n))
  }

  lemma PushTwice(candidates: seq<string>, x: string)
    requires x in candidates
    ensures PushUnique(candidates, x) == candidates
  {}

  lemma PushListed(candidates: seq<string>, id: Option<string>)
    ensures PushAll(candidates, Listed(id)) == if id.Some? then PushUnique(candidates, id.value) else candidates
  {
    if id.Some? {
      assert Listed(id)[1..] == [];
      assert PushAll(PushUnique(candidates, id.value), []) == PushUnique(candidates, id.value);
    }
  }

  /** Two steps of the resolver, in order, each id once. */
  lemma ChainIsTwoSteps(resolve: Resolver, candidates: seq<string>, base: string)
    requires base in candidates || base == ""
    ensures var first := resolve(base); var second := if first.Some? then resolve(first.value) else None;
      Chain(resolve, candidates, base, 2) == PushAll(PushAll(candidates, Listed(first)), Listed(second))
  {
    hide PushAll;
    var first := resolve(base);
    var second := if first.Some? then resolve(first.value) else None;
    PushListed(candidates, first);
    PushListed(PushAll(candidates, Listed(first)), second);
    if first.Some? {
      assert Chain(resolve, PushUnique(candidates, first.value), first.value, 1)
        == if second.None? || second.value == first.value then PushUnique(candidates, first.value)
           else PushUnique(PushUnique(candidates, first.value), second.value) by {
        ChainOnce(resolve, PushUnique(candidates, first.value), first.value);
      }
    }
  }

  lemma ChainOnce(resolve: Resolver, candidates: seq<string>, candidate: string)
    ensures Chain(resolve, candidates, candidate, 1) == match resolve(candidate)
      case None => candidates
      case Some(id) => if id == candidate then candidates else PushUnique(candidates, id)
  {}

  ghost predicate AnyFable(ids: seq<string>) {
    exists i :: 0 <= i < |ids| && ids[i] != "" && FableFamily(ids[i])
  }

  /** The aliases of an id are the ids known for it, in order and once each; if one of them is of the Fable family,
      its two names come behind. */
  lemma AliasesMeaning(resolve: Resolver, n: string)
    requires n != ""
    ensures Aliases(resolve, n)
         == PushAll([], Known(resolve, n) + if AnyFable(Known(resolve, n)) then ["claude-fable-5", "fable"] else [])
  {
    hide PushAll, FableFamily, PushUnique, Chain;
    var base := BaseOf(n);
    assert base == StripSuffix(n, PREVIEW).GetOr(n);
    var first, second := FirstAlias(resolve, n), SecondAlias(resolve, n);
    var known := Known(resolve, n);
    StartPushed(n, base);
    ChainIsTwoSteps(resolve, PushUnique([n], base), base);
    PushAllThen([], [n, base], Listed(first));
    PushAllThen([], [n, base] + Listed(first), Listed(second));
    var chained := PushAll([], known);
    SameFable(known, chained);
    PushAllThen([], known, ["claude-fable-5", "fable"]);
    PushTwo(chained, "claude-fable-5", "fable");
    assert known + [] == known;
  }

  lemma StartPushed(n: string, base: string)
    requires n != ""
    ensures PushAll([], [n, base]) == PushUnique([n], base)
    ensures base in PushUnique([n], base) || base == ""
  {
    PushTwo([], n, base);
  }

  lemma SameFable(ids: seq<string>, pushed: seq<string>)
    requires pushed == PushAll([], ids)
    ensures AnyFable(ids) <==> exists i :: 0 <= i < |pushed| && FableFamily(pushed[i])
  {
    hide FableFamily, PushAll;
    PushedAre(ids);
    if AnyFable(ids) {
      var i :| 0 <= i < |ids| && ids[i] != "" && FableFamily(ids[i]);
      assert ids[i] in pushed;
      var j :| 0 <= j < |pushed| && pushed[j] == ids[i];
      assert FableFamily(pushed[j]);
    } else {
      forall i | 0 <= i < |pushed| ensures !FableFamily(pushed[i]) {
        assert pushed[i] in pushed;
        var j :| 0 <= j < |ids| && ids[j] == pushed[i];
      }
    }
  }

  lemma PushedAre(ids: seq<string>)
    ensures forall c :: c in PushAll([], ids) <==> c in ids && c != ""
  {}

  // ---------------------------------------------------------------- the Fable family

  const FABLE: set<string> :=
    {"minimal", "none", "low", "medium", "high", "xhigh", "max", "thinking", "fast", "preview"}

  /** An id of the family: one of its two names, or the longer one with words of this list behind it. */
  lemma FableMeaning(model: string)
    ensures var n := Normalize(model);
      FableFamily(model) <==>
        || n == "fable" || n == "claude-fable-5"
        || exists words: seq<string> ::
             && words != [] && n == "claude-fable-5-" + Join(words, '-')
             && forall i :: 0 <= i < |words| ==>
                  words[i] in FABLE
  {
    hide Normalize, Split, Join;
    var n := Normalize(model);
    var prefix := "claude-fable-5-";
    if StripPrefix(n, prefix).Some? {
      var suffix := StripPrefix(n, prefix).value;
      JoinSplit(suffix, '-');
    }
    forall words: seq<string> | words != [] && n == prefix + Join(words, '-')
      && forall i :: 0 <= i < |words| ==>
           words[i] in FABLE
      ensures FableFamily(model)
    {
      var suffix := Join(words, '-');
      assert n[..|prefix|] == prefix && n[|prefix|..] == suffix;
      WordsHaveNoDash(words);
      SplitJoin(words, '-');
    }
  }

  lemma WordsHaveNoDash(words: seq<string>)
    requires forall i :: 0 <= i < |words| ==>
      words[i] in FABLE
    ensures forall i :: 0 <= i < |words| ==> '-' !in words[i]
  {}

  // ---------------------------------------------------------------- all candidates

  lemma {:induction false} SpelledIn(sources: seq<string>, c: string)
    ensures c in Spellings(sources) <==> exists i :: 0 <= i < |sources| && c in RouteCandidates(sources[i])
  {
    hide RouteCandidates;
    if sources != [] {
      SpelledIn(sources[1..], c);
      if i :| 0 <= i < |sources| && c in RouteCandidates(sources[i]) {
        assert i > 0 ==> sources[1..][i - 1] == sources[i];
      }
      if i :| 0 <= i < |sources[1..]| && c in RouteCandidates(sources[1..][i]) {
        assert sources[i + 1] == sources[1..][i];
      }
    }
  }

  /** A candidate is an alias or a spelling of one, and nothing else is. */
  lemma CandidatesMeaning(resolve: Resolver, model: string, c: string)
    ensures var n := Normalize(model);
      c in ResolvedCandidates(resolve, model) <==>
        n != "" && (c in Aliases(resolve, n)
                    || (c != "" && exists i :: 0 <= i < |Aliases(resolve, n)|
                                     && c in RouteCandidates(Aliases(resolve, n)[i])))
  {
    hide Normalize, Aliases, Spellings, RouteCandidates;
    SpelledIn(Aliases(resolve, Normalize(model)), c);
  }

  /** What the resolver leads to in one step or two is a candidate. */
  lemma AliasIsCandidate(resolve: Resolver, model: string, x: string)
    requires Normalize(model) != "" && x != ""
    requires var n := Normalize(model); FirstAlias(resolve, n) == Some(x) || SecondAlias(resolve, n) == Some(x)
    ensures x in ResolvedCandidates(resolve, model)
  {
    hide Normalize, RouteCandidates, PushAll, AnyFable, BaseOf;
    var n := Normalize(model);
    AliasesMeaning(resolve, n);
    CandidatesMeaning(resolve, model, x);
    KnownIn(resolve, n, x);
  }

  lemma KnownIn(resolve: Resolver, n: string, x: string)
    requires x != "" && (FirstAlias(resolve, n) == Some(x) || SecondAlias(resolve, n) == Some(x))
    ensures forall more :: x in PushAll([], Known(resolve, n) + more)
  {
    hide BaseOf;
    forall more ensures x in PushAll([], Known(resolve, n) + more) {
      assert x in Known(resolve, n);
    }
  }

  /** A lone literal rule for what an alias leads to answers for the alias. */
  lemma AliasIsRouted(resolve: Resolver, model: string, x: string, account: string)
    requires Normalize(model) != "" && x != "" && Literal(x)
    requires var n := Normalize(model); FirstAlias(resolve, n) == Some(x) || SecondAlias(resolve, n) == Some(x)
    ensures Lookup([Rule(x, account)], resolve, model) == Some(account)
  {
    hide Normalize, ResolvedCandidates, Literal, Hits, FirstAlias, SecondAlias;
    AliasIsCandidate(resolve, model, x);
    var cs, rules := ResolvedCandidates(resolve, model), [Rule(x, account)];
    var i :| 0 <= i < |cs| && cs[i] == x;
    HitsMeaning(x, cs[i]);
    assert HitsAny(rules[0].model, cs);
  }
}
