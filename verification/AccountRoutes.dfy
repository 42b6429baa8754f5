/** Which account a model is routed to: building, editing and consulting the list of rules. */
module AccountRoutes {
  import opened Text
  import opened Models
  import opened Grok

  datatype Rule = Rule(model: string, account: string)

  // ---------------------------------------------------------------- building a policy

  /** A rule with its model normalised and its account trimmed, if both leave something. */
  function Clean(rule: Rule): (r: Option<Rule>)
    ensures r.Some? ==> r.value.model != "" && r.value.account != ""
  {
    var model, account := Normalize(rule.model), Trim(rule.account);
    if model == "" || account == "" then None else Some(Rule(model, account))
  }

  function Position(routes: seq<Rule>, model: string): (k: Option<nat>)
    ensures k.Some? ==> k.value < |routes| && routes[k.value].model == model
    ensures k.None? ==> forall i :: 0 <= i < |routes| ==> routes[i].model != model
  {
    if routes == [] then None
    else if routes[0].model == model then Some(0)
    else match Position(routes[1..], model)
      case Some(k) => Some(k + 1)
      case None => None
  }

  /** The newest rule for a model takes the place of an older one. */
  function Place(routes: seq<Rule>, rule: Rule): seq<Rule> {
    match Position(routes, rule.model)
    case Some(k) => routes[k := rule]
    case None => routes + [rule]
  }

  function New(rules: seq<Rule>): seq<Rule> {
    if rules == [] then []
    else
      var before, n := New(rules[..|rules| - 1]), |rules| - 1;
      match Clean(rules[n])
      case None => before
      case Some(rule) => Place(before, rule)
  }

  method NewPolicy(rules: seq<Rule>) returns (routes: seq<Rule>)
    ensures routes == New(rules)
    ensures Unique(routes)
    ensures forall model :: AccountOf(routes, model) == LastAccount(rules, model)
  {
    routes := [];
    for i := 0 to |rules|
      invariant routes == New(rules[..i])
    {
      assert rules[..i + 1][..i] == rules[..i];
      var model, account := Normalize(rules[i].model), Trim(rules[i].account);
      if model == "" || account == "" {
        continue;
      }
      var existing := Position(routes, model);
      if existing.Some? {
        routes := routes[existing.value := Rule(model, account)];
      } else {
        routes := routes + [Rule(model, account)];
      }
    }
    assert rules[..|rules|] == rules;
    forall model ensures AccountOf(routes, model) == LastAccount(rules, model) {
      LastWins(rules, model);
    }
    NewIsUnique(rules);
  }

  predicate Unique(routes: seq<Rule>) {
    forall i, j :: 0 <= i < j < |routes| ==> routes[i].model != routes[j].model
  }

  function AccountOf(routes: seq<Rule>, model: string): Option<string> {
    match Position(routes, model)
    case Some(k) => Some(routes[k].account)
    case None => None
  }

  /** The account the last usable rule for a normalised model names. */
  function LastAccount(rules: seq<Rule>, model: string): Option<string> {
    if rules == [] then None
    else
      var last := Clean(rules[|rules| - 1]);
      if last.Some? && last.value.model == model then Some(last.value.account)
      else LastAccount(rules[..|rules| - 1], model)
  }

  lemma {:induction false} NewIsUnique(rules: seq<Rule>)
    ensures Unique(New(rules))
  {
    hide Clean;
    if rules != [] {
      NewIsUnique(rules[..|rules| - 1]);
    }
  }

  lemma UniquePosition(routes: seq<Rule>, k: nat)
    requires Unique(routes) && k < |routes|
    ensures Position(routes, routes[k].model) == Some(k)
  {
    var found := Position(routes, routes[k].model).value;
  }

  lemma PlaceAnswers(routes: seq<Rule>, rule: Rule, model: string)
    requires Unique(routes)
    ensures AccountOf(Place(routes, rule), model)
         == if model == rule.model then Some(rule.account) else AccountOf(routes, model)
    ensures Unique(Place(routes, rule))
  {
    var placed := Place(routes, rule);
    var now, then_ := Position(placed, model), Position(routes, model);
    if now.Some? {
      UniquePosition(placed, now.value);
    }
    if then_.Some? && model != rule.model {
      assert placed[then_.value] == routes[then_.value];
      UniquePosition(placed, then_.value);
    }
    var at := Position(routes, rule.model);
    var k := if at.Some? then at.value else |routes|;
    assert placed[k] == rule;
    UniquePosition(placed, k);
  }

  /** Of the rules for one normalised model the last one wins, whatever is written before it. */
  lemma {:induction false} LastWins(rules: seq<Rule>, model: string)
    ensures AccountOf(New(rules), model) == LastAccount(rules, model)
  {
    hide Clean, Place;
    if rules != [] {
      var before := rules[..|rules| - 1];
      LastWins(before, model);
      NewIsUnique(before);
      var last := Clean(rules[|rules| - 1]);
      if last.Some? {
        PlaceAnswers(New(before), last.value, model);
      }
    }
  }

  // ---------------------------------------------------------------- candidates

  /** Alias resolution, whatever it is: None when it fails. */
  type Resolver = string -> Option<string>

  const FABLE_WORDS: set<string> := {"minimal", "none", "low", "medium", "high", "xhigh",
                                     "max", "thinking", "fast", "preview"}

  predicate FableFamily(model: string) {
    var normalized := Normalize(model);
    normalized == "fable" || normalized == "claude-fable-5"
    || match StripPrefix(normalized, "claude-fable-5-")
       case Some(suffix) => forall i :: 0 <= i < |Split(suffix, '-')| ==> Split(suffix, '-')[i] in FABLE_WORDS
       case None => false
  }

  function PushAll(candidates: seq<string>, more: seq<string>): (r: seq<string>)
    ensures candidates <= r
    ensures forall c :: c in r <==> c in candidates || (c in more && c != "")
    decreases |more|
  {
    if more == [] then candidates
    else
      assert more == [more[0]] + more[1..];
      PushAll(PushUnique(candidates, more[0]), more[1..])
  }

  function Chain(resolve: Resolver, candidates: seq<string>, candidate: string, times: nat): (r: seq<string>)
    ensures candidates <= r
    decreases times
  {
    if times == 0 then candidates
    else match resolve(candidate)
      case None => candidates
      case Some(id) => if id == candidate then candidates else Chain(resolve, PushUnique(candidates, id), id, times - 1)
  }

  function Aliases(resolve: Resolver, n: string): (r: seq<string>)
    ensures [n] <= r
  {
    var base := StripSuffix(n, PREVIEW).GetOr(n);
    var chained := Chain(resolve, PushUnique([n], base), base, 2);
    if exists i :: 0 <= i < |chained| && FableFamily(chained[i])
    then PushUnique(PushUnique(chained, "claude-fable-5"), "fable") else chained
  }

  function Spellings(sources: seq<string>): seq<string> {
    if sources == [] then [] else RouteCandidates(sources[0]) + Spellings(sources[1..])
  }

  /** The ids a request for a model may be known by, the normalised id first. */
  function ResolvedCandidates(resolve: Resolver, model: string): (r: seq<string>)
    ensures Normalize(model) != "" ==> [Normalize(model)] <= r
  {
    var n := Normalize(model);
    if n == "" then [] else PushAll(Aliases(resolve, n), Spellings(Aliases(resolve, n)))
  }

  function BothPresentations(originals: seq<string>): seq<string> {
    if originals == [] then []
    else
      var base := StripSuffix(originals[0], PREVIEW).GetOr(originals[0]);
      [base, base + PREVIEW] + BothPresentations(originals[1..])
  }

  /** The literals an edit of a model cleans up. */
  function EquivalentCandidates(resolve: Resolver, model: string): seq<string> {
    var resolved := ResolvedCandidates(resolve, model);
    PushAll(resolved, BothPresentations(resolved))
  }

  method PushEach(sources: seq<string>, more: seq<string>) returns (candidates: seq<string>)
    ensures candidates == PushAll(sources, more)
  {
    hide PushUnique;
    candidates := sources;
    for i := 0 to |more|
      invariant PushAll(candidates, more[i..]) == PushAll(sources, more)
    {
      assert more[i..][0] == more[i] && more[i..][1..] == more[i + 1..];
      candidates := PushUnique(candidates, more[i]);
    }
  }

  method PushSpellings(sources: seq<string>) returns (candidates: seq<string>)
    ensures candidates == PushAll(sources, Spellings(sources))
  {
    hide RouteCandidates, PushUnique;
    candidates := sources;
    for i := 0 to |sources|
      invariant PushAll(candidates, Spellings(sources[i..])) == PushAll(sources, Spellings(sources))
    {
      assert sources[i..][0] == sources[i] && sources[i..][1..] == sources[i + 1..];
      PushAllThen(candidates, RouteCandidates(sources[i]), Spellings(sources[i + 1..]));
      candidates := PushEach(candidates, RouteCandidates(sources[i]));
    }
  }

  lemma {:induction false} PushAllThen(candidates: seq<string>, x: seq<string>, y: seq<string>)
    ensures PushAll(candidates, x + y) == PushAll(PushAll(candidates, x), y)
    decreases |x|
  {
    if x == [] {
      assert x + y == y;
    } else {
      assert (x + y)[0] == x[0] && (x + y)[1..] == x[1..] + y;
      PushAllThen(PushUnique(candidates, x[0]), x[1..], y);
    }
  }

  method ResolveModel(resolve: Resolver, model: string) returns (candidates: seq<string>)
    ensures candidates == ResolvedCandidates(resolve, model)
  {
    hide RouteCandidates, FableFamily, Normalize, PushUnique, StripSuffix, PushAll, Spellings;
    var normalized := Normalize(model);
    if normalized == "" {
      return [];
    }
    candidates := [normalized];
    var candidate := StripSuffix(normalized, PREVIEW).GetOr(normalized);
    candidates := PushUnique(candidates, candidate);
    ghost var chained := Chain(resolve, candidates, candidate, 2);
    for i := 0 to 2
      invariant Chain(resolve, candidates, candidate, 2 - i) == chained
    {
      var resolved := resolve(candidate);
      if resolved.None? || resolved.value == candidate {
        break;
      }
      candidate := resolved.value;
      candidates := PushUnique(candidates, candidate);
    }
    assert candidates == chained;
    if exists i :: 0 <= i < |candidates| && FableFamily(candidates[i]) {
      candidates := PushUnique(candidates, "claude-fable-5");
      candidates := PushUnique(candidates, "fable");
    }
    candidates := PushSpellings(candidates);
  }

  method EquivalentModels(resolve: Resolver, model: string) returns (candidates: seq<string>)
    ensures candidates == EquivalentCandidates(resolve, model)
  {
    hide ResolvedCandidates, PushUnique, EndsWith;
    var originals := ResolveModel(resolve, model);
    candidates := originals;
    for i := 0 to |originals|
      invariant PushAll(candidates, BothPresentations(originals[i..]))
             == PushAll(originals, BothPresentations(originals))
    {
      assert originals[i..][0] == originals[i] && originals[i..][1..] == originals[i + 1..];
      var base := StripSuffix(originals[i], PREVIEW).GetOr(originals[i]);
      PushAllThen(candidates, [base, base + PREVIEW], BothPresentations(originals[i + 1..]));
      PushTwo(candidates, base, base + PREVIEW);
      candidates := PushUnique(candidates, base);
      candidates := PushUnique(candidates, base + PREVIEW);
    }
  }

  lemma PushTwo(candidates: seq<string>, x: string, y: string)
    ensures PushAll(candidates, [x, y]) == PushUnique(PushUnique(candidates, x), y)
  {
    hide PushUnique;
    var one := PushUnique(candidates, x);
    assert [x, y][1..] == [y] && [y][1..] == [];
    assert PushAll(PushUnique(one, y), []) == PushUnique(one, y);
    assert PushAll(one, [y]) == PushUnique(one, y);
  }
}
