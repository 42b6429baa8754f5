/** The two namespaces Grok models are spelled in: counterparts, Sand policies, and account-route candidates. */
module Grok {
  import opened Text
  import opened Glob
  import opened Models

  datatype Namespace = Public | Cursor

  function Prefix(ns: Namespace): (p: string)
    ensures |p| >= 5 && p[|p| - 1] == '-'
  {
    match ns
    case Public => "grok-"
    case Cursor => "cursor-grok-"
  }

  function Other(ns: Namespace): Namespace {
    if ns == Public then Cursor else Public
  }

  datatype Spelling = Spelling(ns: Namespace, rest: string)

  function ReadNamespace(m: string): (r: Option<Spelling>)
    ensures r.Some? ==> m == Prefix(r.value.ns) + r.value.rest
  {
    match StripPrefix(m, Prefix(Cursor))
    case Some(rest) => Some(Spelling(Cursor, rest))
    case None =>
      match StripPrefix(m, Prefix(Public))
      case Some(rest) => Some(Spelling(Public, rest))
      case None => None
  }

  lemma ReadPrefixed(ns: Namespace, rest: string)
    ensures ReadNamespace(Prefix(ns) + rest) == Some(Spelling(ns, rest))
  {
    var m := Prefix(ns) + rest;
    if ns == Public {
      assert m[0] == 'g' && Prefix(Cursor)[0] == 'c';
    }
  }

  /** The part before the first `-`. */
  function VersionOf(rest: string): (v: string)
    ensures |v| <= |rest| && v == rest[..|v|] && '-' !in v
    ensures |v| < |rest| ==> rest[|v|] == '-'
  {
    if rest == "" || rest[0] == '-' then "" else [rest[0]] + VersionOf(rest[1..])
  }

  predicate Numeric(v: string) {
    v != "" && forall i :: 0 <= i < |v| ==> '0' <= v[i] <= '9' || v[i] == '.'
  }

  /** The same spelling in the other namespace, for ids with a numeric version. */
  function Counterpart(model: string): Option<string> {
    match ReadNamespace(Normalize(model))
    case None => None
    case Some(s) => if Numeric(VersionOf(s.rest)) then Some(Prefix(Other(s.ns)) + s.rest) else None
  }

  // ---------------------------------------------------------------- counterparts

  lemma PrefixIsClean(ns: Namespace)
    ensures var p := Prefix(ns); '(' !in p && '[' !in p && !IsSpace(p[0]) && Lower(p) == p
  {}

  lemma NotWrapped(ns: Namespace, rest: string)
    ensures !Wrapped(Prefix(ns) + rest)
  {
    var m := Prefix(ns) + rest;
    if ns == Public {
      assert m[0] == 'g';
    } else {
      assert m[6] == '-' && m[7] == 'g';
      NotPrefixed(m, "cursor-plan:", 7);
      NotPrefixed(m, "cursor-ask:", 7);
      NotPrefixed(m, "cursor-agent:", 7);
      NotPrefixed(m, "cursor:", 6);
    }
  }

  lemma OtherIsPlain(ns: Namespace, rest: string)
    requires Plain(Prefix(ns) + rest) && rest != ""
    ensures Plain(Prefix(Other(ns)) + rest)
  {
    hide Prefix, ContextMarker, EndsWith, Wrapped, IsSpace, Lower, Trim, Other;
    var p, q := Prefix(ns), Prefix(Other(ns));
    var m, n := p + rest, q + rest;
    PrefixIsClean(Other(ns));
    PrefixIsClean(ns);
    NotWrapped(Other(ns), rest);
    LowerMoves(p, q, rest);
    TrimMoves(p, q, rest);
    if ContextMarker(n).Some? {
      MarkerMoves(p, q, rest);
    }
    if EndsWith(n, "[1m]") {
      SuffixMoves(p, q, rest, "[1m]");
    }
    if EndsWith(n, "[2m]") {
      SuffixMoves(p, q, rest, "[2m]");
    }
  }

  /** On normalised ids the counterpart is an involution without fixed points, and stays normalised. */
  lemma CounterpartInvolution(m: string)
    requires Normalize(m) == m && Counterpart(m).Some?
    ensures var n := Counterpart(m).value;
      Normalize(n) == n && n != m && Counterpart(n) == Some(m)
  {
    hide Normalize, Tidy, Wrapped, Numeric;
    var s := ReadNamespace(m).value;
    var n := Counterpart(m).value;
    FixedExactlyWhenPlain(m);
    FixedExactlyWhenPlain(n);
    VersionNotEmpty(s.rest);
    OtherIsPlain(s.ns, s.rest);
    ReadPrefixed(Other(s.ns), s.rest);
    ReadPrefixed(s.ns, s.rest);
  }

  lemma VersionNotEmpty(rest: string)
    requires Numeric(VersionOf(rest))
    ensures rest != ""
  {}

  // ---------------------------------------------------------------- Sand policies

  function PushUnique(candidates: seq<string>, candidate: string): (r: seq<string>)
    ensures candidates <= r
    ensures forall c :: c in r <==> c in candidates || (c == candidate && c != "")
  {
    if candidate != "" && candidate !in candidates then candidates + [candidate] else candidates
  }

  function SandCandidates(n: string): seq<string> {
    match Counterpart(n)
    case Some(other) => PushUnique([n], other)
    case None => [n]
  }

  ghost predicate AnyHits(patterns: seq<string>, candidate: string) {
    exists i :: 0 <= i < |patterns| && Hits(patterns[i], candidate)
  }

  ghost predicate SandMatches(patterns: seq<string>, model: string) {
    var n := Normalize(model);
    n != "" && exists j :: 0 <= j < |SandCandidates(n)| && AnyHits(patterns, SandCandidates(n)[j])
  }

  /** A policy answers for an id by its patterns on the normalised id and on its counterpart, and nothing else. */
  lemma SandMeaning(patterns: seq<string>, model: string)
    ensures var n := Normalize(model);
      SandMatches(patterns, model) <==>
        n != "" && (AnyHits(patterns, n) || (Counterpart(n).Some? && AnyHits(patterns, Counterpart(n).value)))
  {
    hide AnyHits, Normalize, Counterpart;
    var n := Normalize(model);
    var cs := SandCandidates(n);
    assert cs[0] == n;
    if Counterpart(n).Some? && Counterpart(n).value != "" {
      assert Counterpart(n).value in cs;
    }
    CounterpartNotEmpty(n);
  }

  lemma CounterpartNotEmpty(n: string)
    ensures Counterpart(n).Some? ==> Counterpart(n).value != ""
  {}

  lemma SandAgrees(patterns: seq<string>, model: string)
    requires var n := Normalize(model); Normalize(n) == n && Counterpart(n).Some?
    ensures SandMatches(patterns, model) == SandMatches(patterns, Counterpart(Normalize(model)).value)
  {
    hide AnyHits, Normalize, Counterpart, SandMatches;
    var n := Normalize(model);
    var other := Counterpart(n).value;
    CounterpartInvolution(n);
    CounterpartNotEmpty(n);
    CounterpartNotEmpty(other);
    SandMeaning(patterns, model);
    SandMeaning(patterns, other);
  }

  // ---------------------------------------------------------------- exactly when a policy cannot tell them apart

  predicate Heads(s: string, head: string) {
    StartsWith(s, head) && head != "" && !IsSpace(head[|head| - 1]) && !IsSpace(head[0])
  }

  lemma {:induction false} TrimEndKeeps(s: string, head: string)
    requires Heads(s, head)
    ensures Heads(TrimEnd(s), head)
  {
    if IsSpace(s[|s| - 1]) {
      assert |s| > |head| by {
        assert |s| == |head| ==> s == head;
      }
      TrimEndKeeps(s[..|s| - 1], head);
    }
  }

  lemma TrimKeeps(s: string, head: string)
    requires Heads(s, head)
    ensures Heads(Trim(s), head)
  {
    hide IsSpace;
    assert s[0] == head[0];
    TrimEndKeeps(s, head);
  }

  lemma LowerKeepsHead(s: string, head: string)
    requires Heads(s, head) && Lower(head) == head
    ensures Heads(Lower(s), head)
  {
    hide IsSpace, LowerChar;
    forall i | 0 <= i < |head| ensures Lower(s)[i] == head[i] {
      assert s[i] == s[..|head|][i] && Lower(head)[i] == head[i];
    }
  }

  /** A size marker or context marker stands behind a head that holds neither bracket. */
  lemma MarkersBehind(s: string, head: string)
    requires Heads(s, head) && '[' !in head && '(' !in head
    ensures Heads(DropContextSize(s), head) && Heads(DropContextMarker(s), head)
  {
    hide IsSpace, WithoutSpace;
    if |DropContextSize(s)| < |s| {
      assert s[|s| - 4..][0] == '[';
      assert forall i :: 0 <= i < |head| ==> head[i] == s[i];
      assert s[..|s| - 4][..|head|] == s[..|head|];
    }
    if ContextMarker(s).Some? {
      var k := ContextMarker(s).value;
      assert forall i :: 0 <= i < |head| ==> head[i] == s[i];
      assert s[..k][..|head|] == s[..|head|];
      TrimEndKeeps(s[..k], head);
    }
  }

  /** Normalisation cuts behind the place where the version starts. */
  lemma NormalizeKeepsHead(m: string, ns: Namespace, first: char)
    requires '0' <= first <= '9' || first == '.'
    requires StartsWith(m, Prefix(ns) + [first])
    ensures StartsWith(Normalize(m), Prefix(ns) + [first])
  {
    hide Trim, Lower, DropContextSize, DropContextMarker, Wrapped, Prefix, IsSpace;
    var head := Prefix(ns) + [first];
    PrefixIsClean(ns);
    HeadIsClean(ns, first);
    var a := Trim(m);
    var b := Lower(a);
    var c := DropContextSize(b);
    var d := DropContextMarker(c);
    TrimKeeps(m, head);
    LowerKeepsHead(a, head);
    MarkersBehind(b, head);
    MarkersBehind(c, head);
    HeadSplits(d, Prefix(ns), first);
    NotWrapped(ns, [first] + d[|head|..]);
    UnwrappedStays(d);
    TrimKeeps(d, head);
    assert Normalize(m) == Trim(d);
  }

  lemma UnwrappedStays(d: string)
    requires !Wrapped(d)
    ensures DropWrapper(d) == d
  {}

  lemma HeadIsClean(ns: Namespace, first: char)
    requires '0' <= first <= '9' || first == '.'
    ensures var head := Prefix(ns) + [first];
      '(' !in head && '[' !in head && !IsSpace(head[0]) && !IsSpace(first) && Lower(head) == head
  {}

  /** An unwrapped id is normalised by cutting at its ends, so it begins as its normal form does. */
  lemma UnwrappedKeepsFirst(m: string)
    requires Trim(m) == m && Lower(m) == m && !Wrapped(m) && Normalize(m) != ""
    ensures m != "" && Normalize(m)[0] == m[0]
  {
    hide Trim, Lower, IsSpace, ContextMarker, WithoutSpace;
    var c := DropContextSize(m);
    var d := DropContextMarker(c);
    CutsAreFirstParts(m);
    CutsAreFirstParts(c);
    assert !Wrapped(d);
    assert Normalize(m) == Trim(d);
    TrimOfFirstPart(d, m);
  }

  lemma CutsAreFirstParts(s: string)
    ensures DropContextSize(s) <= s && DropContextMarker(s) <= s
  {
    hide ContextMarker;
    if ContextMarker(s).Some? {
      TrimEndIsPart(s[..ContextMarker(s).value]);
    }
  }

  lemma TrimOfFirstPart(d: string, m: string)
    requires d <= m && Trim(m) == m && Trim(d) != ""
    ensures Trim(d)[0] == m[0]
  {
    hide IsSpace;
  }

  /** The pattern of an id's length that fits it: each `*` of the id is asked for by `?`. */
  function FittingPattern(n: string): (p: string)
    ensures |p| == |n| && '*' !in p
    ensures forall i :: 0 <= i < |n| ==> p[i] == if n[i] == '*' then '?' else n[i]
  {
    seq(|n|, i requires 0 <= i < |n| => if n[i] == '*' then '?' else n[i])
  }

  lemma FittingHits(n: string, x: string)
    ensures Hits(FittingPattern(n), n)
    ensures Hits(FittingPattern(n), x) ==>
      |x| >= |n| && forall i :: 0 <= i < |n| && n[i] != '*' && n[i] != '?' ==> x[i] == n[i]
  {
    hide EndsWith;
    var p := FittingPattern(n);
    StarlessScan(p, n);
    StarlessScan(p, x);
    var stripped := StripSuffix(x, PREVIEW);
    if stripped.Some? {
      StarlessScan(p, stripped.value);
    }
  }

  /** A character at which an id that is not normalised differs from every id of the other namespace. */
  lemma DiffersFromOther(n: string, ns: Namespace, o: string)
    requires Trim(n) == n && Lower(n) == n && StartsWith(Normalize(n), Prefix(ns)) && StartsWith(o, Prefix(Other(ns)))
    requires |n| <= |o|
    ensures exists i :: 0 <= i < |n| && n[i] != '*' && n[i] != '?' && o[i] != n[i]
  {
    hide Normalize, Trim, Lower;
    if Wrapped(n) {
      WrappedDiffers(n, Other(ns), o);
    } else {
      UnwrappedKeepsFirst(n);
      var first := Normalize(n)[..|Prefix(ns)|][0];
      assert first == Prefix(ns)[0] == n[0];
      assert o[0] == o[..|Prefix(Other(ns))|][0] == Prefix(Other(ns))[0];
    }
  }

  lemma WrappedDiffers(n: string, ns: Namespace, o: string)
    requires Wrapped(n) && StartsWith(o, Prefix(ns)) && |n| <= |o|
    ensures exists i :: 0 <= i < |n| && n[i] != '*' && n[i] != '?' && o[i] != n[i]
  {
    assert o == Prefix(ns) + o[|Prefix(ns)|..];
    if ns == Public {
      assert n[0] == 'c' by {
        assert n[0] == n[..7][0];
      }
      assert o[0] == 'g';
    } else {
      assert o[6] == '-' && o[7] == 'g';
      if StartsWith(n, "cursor:") {
        assert n[6] == n[..7][6] == ':';
      } else {
        assert n[7] == n[..11][7] != 'g';
        assert n[7] in ['p', 'a'];
      }
    }
  }

  /** The counterpart of what the other namespace normalises to is no longer than the normal form it came from. */
  lemma BackIsShort(n: string)
    requires Counterpart(n).Some?
    ensures ReadNamespace(Normalize(n)).Some?
    ensures var ns := ReadNamespace(Normalize(n)).value.ns; var o := Normalize(Counterpart(n).value);
      && StartsWith(Normalize(n), Prefix(ns)) && StartsWith(o, Prefix(Other(ns)))
      && (Counterpart(o).Some? ==> |Counterpart(o).value| <= |Normalize(n)|)
  {
    hide Normalize, Prefix, VersionOf, Other;
    var s := ReadNamespace(Normalize(n)).value;
    var other := Counterpart(n).value;
    var o := Normalize(other);
    var first := s.rest[0];
    assert first == VersionOf(s.rest)[0];
    var head := Prefix(Other(s.ns)) + [first];
    StartsWithPrefix(Prefix(s.ns), s.rest);
    StartsWithPrefix(head, s.rest[1..]);
    assert other == head + s.rest[1..];
    NormalizeKeepsHead(other, Other(s.ns), first);
    NormalizeKeepsHead(o, Other(s.ns), first);
    HeadSplits(o, Prefix(Other(s.ns)), first);
    if Counterpart(o).Some? {
      var again := Normalize(o);
      HeadSplits(again, Prefix(Other(s.ns)), first);
      ReadPrefixed(Other(s.ns), [first] + again[|head|..]);
      OtherTwice(s.ns);
    }
  }

  lemma HeadSplits(m: string, p: string, first: char)
    requires StartsWith(m, p + [first])
    ensures m == p + ([first] + m[|p + [first]|..]) && StartsWith(m, p)
  {
    assert m == m[..|p + [first]|] + m[|p + [first]|..];
    assert m[..|p|] == (p + [first])[..|p|];
  }

  lemma OtherTwice(ns: Namespace)
    ensures Other(Other(ns)) == ns
  {}

  lemma OnePattern(pattern: string, candidate: string)
    ensures AnyHits([pattern], candidate) <==> Hits(pattern, candidate)
  {
    hide Hits;
    assert [pattern][0] == pattern;
  }

  /** An id that one call has not normalised for good is told apart from its counterpart. */
  lemma UnsettledDiffers(model: string)
    requires var n := Normalize(model); Normalize(n) != n && Counterpart(n).Some?
    ensures var n := Normalize(model);
      SandMatches([FittingPattern(n)], model) != SandMatches([FittingPattern(n)], Counterpart(n).value)
  {
    hide Normalize, Counterpart, AnyHits, Hits, SandMatches, ReadNamespace, Prefix, Other;
    var n := Normalize(model);
    var p := FittingPattern(n);
    var other := Counterpart(n).value;
    var o := Normalize(other);
    NormalIsTrimmedAndLow(model);
    OneCallIsEnough(model);
    BackIsShort(n);
    SandMeaning([p], model);
    SandMeaning([p], other);
    OnePattern(p, n);
    OnePattern(p, o);
    FittingHits(n, o);
    if Hits(p, o) {
      DiffersFromOther(n, ReadNamespace(Normalize(n)).value.ns, o);
    }
    if Counterpart(o).Some? {
      OnePattern(p, Counterpart(o).value);
      FittingHits(n, Counterpart(o).value);
    }
  }

  /** Every policy gives an id and its counterpart the same answer exactly when one call has normalised the id for
      good. */
  lemma SandAgreesExactly(model: string)
    requires Counterpart(Normalize(model)).Some?
    ensures var n := Normalize(model);
      (forall patterns :: SandMatches(patterns, model) == SandMatches(patterns, Counterpart(n).value))
        <==> Normalize(n) == n
  {
    hide Normalize, Counterpart, SandMatches;
    var n := Normalize(model);
    if Normalize(n) == n {
      forall patterns ensures SandMatches(patterns, model) == SandMatches(patterns, Counterpart(n).value) {
        SandAgrees(patterns, model);
      }
    } else {
      UnsettledDiffers(model);
    }
  }

  // ---------------------------------------------------------------- candidates of an account route

  /** A Grok id taken apart: an empty tier is the bare family. */
  datatype GrokId = GrokId(version: string, tier: string, preview: string)
  {
    function Bare(): GrokId {
      this.(tier := "")
    }
  }

  function Family(ns: Namespace, version: string): string {
    Prefix(ns) + version
  }

  function Variant(ns: Namespace, version: string, tier: string): string {
    if tier == "" then Family(ns, version) else Family(ns, version) + "-" + tier
  }

  function Spell(ns: Namespace, g: GrokId): string {
    Variant(ns, g.version, g.tier) + g.preview
  }

  /** The id without its `-preview` marker, and the marker. */
  function Presented(n: string): (string, string) {
    match StripSuffix(n, PREVIEW)
    case Some(base) => (base, PREVIEW)
    case None => (n, "")
  }

  /** An independent reader of Grok ids. */
  function Read(n: string): Option<GrokId> {
    match ReadNamespace(Presented(n).0)
    case None => None
    case Some(s) =>
      var version := VersionOf(s.rest);
      if |version| == |s.rest| then Some(GrokId(version, "", Presented(n).1))
      else if Numeric(version) then Some(GrokId(version, s.rest[|version| + 1..], Presented(n).1))
      else None
  }

  function DefaultVariants(candidates: seq<string>, version: string, preview: string): (r: seq<string>)
    ensures candidates <= r
  {
    PushUnique(PushUnique(candidates, Variant(Public, version, "high-fast") + preview),
               Variant(Cursor, version, "high-fast") + preview)
  }

  /** The spellings a route accepts for an id, the id itself first. */
  function RouteCandidates(model: string): (r: seq<string>)
    ensures Normalize(model) != "" ==> |r| > 0 && r[0] == Normalize(model)
  {
    var normalized := Normalize(model);
    if normalized == "" then []
    else
      var (base, preview) := Presented(normalized);
      match ReadNamespace(base)
      case None => [normalized]
      case Some(s) => SpelledCandidates(normalized, s, preview)
  }

  function SpelledCandidates(normalized: string, s: Spelling, preview: string): (r: seq<string>)
    ensures [normalized] <= r
  {
    var version := VersionOf(s.rest);
    if |version| == |s.rest| then
      var more := PushUnique(PushUnique(PushUnique([normalized], Family(Other(s.ns), s.rest) + preview),
                                        Family(Public, s.rest) + preview), Family(Cursor, s.rest) + preview);
      DefaultVariants(more, s.rest, preview)
    else if !Numeric(version) then [normalized]
    else
      var suffix := s.rest[|version| + 1..];
      var more := PushUnique(PushUnique(PushUnique([normalized], Variant(Other(s.ns), version, suffix) + preview),
                                        Family(Public, version) + preview), Family(Cursor, version) + preview);
      if suffix == "" then DefaultVariants(more, version, preview) else more
  }

  lemma SpelledOut(ns: Namespace, version: string, tier: string)
    requires tier != ""
    ensures Variant(ns, version, tier) == Prefix(ns) + (version + ("-" + tier))
  {
    hide Prefix;
  }

  /** A tier reads the way it is spelled. */
  lemma ReadIsSpelled(n: string)
    requires Read(n).Some? && Read(n).value.tier != ""
    ensures n == Spell(ReadNamespace(Presented(n).0).value.ns, Read(n).value)
  {
    hide Numeric, Prefix, EndsWith, VersionOf, ReadNamespace, Variant;
    var s := ReadNamespace(Presented(n).0).value;
    var g := Read(n).value;
    assert s.rest == g.version + ("-" + g.tier);
    SpelledOut(s.ns, g.version, g.tier);
  }

  lemma ReadNotEmpty(n: string)
    ensures Read(n).Some? ==> n != ""
  {}

  lemma VariantsNotEmpty(version: string, tier: string, preview: string)
    ensures forall ns :: Variant(ns, version, tier) + preview != "" && Family(ns, version) + preview != ""
  {}

  /** The candidates of an explicit tier: that tier and the bare family, in both namespaces. */
  lemma TierCandidates(model: string, c: string)
    requires var g := Read(Normalize(model)); g.Some? && g.value.tier != ""
    ensures var g := Read(Normalize(model)).value;
      c in RouteCandidates(model) <==>
        c in {Spell(Public, g), Spell(Cursor, g), Spell(Public, g.Bare()), Spell(Cursor, g.Bare())}
  {
    hide Normalize, Numeric, Presented, ReadNamespace, VersionOf, Family, PushUnique;
    var n := Normalize(model);
    var g := Read(n).value;
    ReadIsSpelled(n);
    VariantsNotEmpty(g.version, g.tier, g.preview);
  }

  /** The candidates of a bare family: the id, the family, and the default tier, in both namespaces. */
  lemma BareCandidates(model: string, c: string)
    requires var g := Read(Normalize(model)); g.Some? && g.value.tier == ""
    ensures var g := Read(Normalize(model)).value; var fast := g.(tier := "high-fast");
      c in RouteCandidates(model) <==>
        c in {Normalize(model), Spell(Public, g), Spell(Cursor, g), Spell(Public, fast), Spell(Cursor, fast)}
  {
    hide Normalize, Numeric, Presented, ReadNamespace, VersionOf, Family, PushUnique;
    var n := Normalize(model);
    var g := Read(n).value;
    ReadNotEmpty(n);
    VariantsNotEmpty(g.version, "high-fast", g.preview);
    var rest := ReadNamespace(Presented(n).0).value.rest;
    assert g.version == rest[..|g.version|];
    assert rest[..|rest|] == rest;
  }

  /** What reads has a version of digits, and no second marker where there is none. */
  predicate Readable(g: GrokId) {
    && Numeric(g.version)
    && (g.preview == PREVIEW || (g.preview == "" && !EndsWith("-" + g.tier, PREVIEW)))
  }

  /** Behind a digit or a dot, only a whole marker ends in a marker. */
  lemma NoHiddenMarker(head: string, tail: string)
    requires head != "" && head[|head| - 1] !in PREVIEW && !EndsWith(tail, PREVIEW)
    ensures !EndsWith(head + tail, PREVIEW)
  {
    var s := head + tail;
    if |s| >= |PREVIEW| {
      var at := |s| - |PREVIEW|;
      if at < |head| {
        assert s[at..][|head| - 1 - at] == head[|head| - 1];
      } else {
        assert s[at..] == tail[|tail| - |PREVIEW|..];
      }
    }
  }

  lemma VersionEnds(ns: Namespace, version: string)
    requires Numeric(version)
    ensures var head := Family(ns, version); head != "" && head[|head| - 1] !in PREVIEW
  {
    var head := Family(ns, version);
    assert head[|head| - 1] == version[|version| - 1];
  }

  lemma PreviewStrips(base: string)
    ensures StripSuffix(base + PREVIEW, PREVIEW) == Some(base)
  {
    assert (base + PREVIEW)[|base|..] == PREVIEW;
    assert (base + PREVIEW)[..|base|] == base;
  }

  lemma NothingEndsInMarker()
    ensures !EndsWith("", PREVIEW) && !EndsWith("-", PREVIEW)
  {}

  lemma SpellPresented(ns: Namespace, g: GrokId)
    requires Readable(g)
    ensures Presented(Spell(ns, g)) == (Spell(ns, g.(preview := "")), g.preview)
  {
    hide Numeric, Family, EndsWith;
    var bare := Variant(ns, g.version, g.tier);
    assert bare + "" == bare;
    if g.preview == PREVIEW {
      PreviewStrips(bare);
    } else {
      VersionEnds(ns, g.version);
      var tail := if g.tier == "" then "" else "-" + g.tier;
      assert Family(ns, g.version) + ("-" + g.tier) == Family(ns, g.version) + "-" + g.tier;
      assert Family(ns, g.version) + "" == Family(ns, g.version);
      NothingEndsInMarker();
      NoHiddenMarker(Family(ns, g.version), tail);
    }
  }

  lemma {:induction false} VersionRead(version: string, tail: string)
    requires '-' !in version && (tail == "" || tail[0] == '-')
    ensures VersionOf(version + tail) == version
  {
    if version == "" {
      assert version + tail == tail;
    } else {
      assert (version + tail)[1..] == version[1..] + tail;
      VersionRead(version[1..], tail);
    }
  }

  /** Reading undoes spelling, in either namespace. */
  lemma ReadSpelled(ns: Namespace, g: GrokId)
    requires Readable(g)
    ensures Read(Spell(ns, g)) == Some(g)
  {
    hide Presented, EndsWith, Prefix, ReadNamespace;
    SpellPresented(ns, g);
    var tail := if g.tier == "" then "" else "-" + g.tier;
    assert Spell(ns, g.(preview := "")) == Prefix(ns) + (g.version + tail);
    ReadPrefixed(ns, g.version + tail);
    assert '-' !in g.version;
    VersionRead(g.version, tail);
    if g.tier != "" {
      assert (g.version + tail)[|g.version| + 1..] == g.tier;
    }
  }

  lemma ReadIsReadable(n: string)
    requires Read(n).Some? && Read(n).value.tier != ""
    ensures Readable(Read(n).value) && Readable(Read(n).value.Bare())
  {
    hide Prefix, VersionOf, ReadNamespace, EndsWith;
    var (base, preview) := Presented(n);
    var s := ReadNamespace(base).value;
    var g := Read(n).value;
    NothingEndsInMarker();
    assert s.rest == g.version + ("-" + g.tier);
    EndsWithTail(Prefix(s.ns) + g.version, "-" + g.tier);
    assert base == Prefix(s.ns) + g.version + ("-" + g.tier);
    assert preview == "" ==> base == n;
    assert "-" + "" == "-";
  }

  lemma EndsWithTail(head: string, tail: string)
    ensures EndsWith(tail, PREVIEW) ==> EndsWith(head + tail, PREVIEW)
  {
    var s := head + tail;
    if |tail| >= |PREVIEW| {
      assert s[|s| - |PREVIEW|..] == tail[|tail| - |PREVIEW|..];
    }
  }

  /** Tiers never mix: whatever a candidate of an explicit tier reads as, it is that tier or the bare family, of the
      same version and presentation. */
  lemma TiersStayApart(model: string, c: string)
    requires var g := Read(Normalize(model)); g.Some? && g.value.tier != ""
    requires c in RouteCandidates(model)
    ensures var g := Read(Normalize(model)).value;
      Read(c) == Some(g) || Read(c) == Some(g.Bare())
  {
    hide Normalize, Numeric, RouteCandidates, Read, Spell, Readable;
    var g := Read(Normalize(model)).value;
    TierCandidates(model, c);
    ReadIsReadable(Normalize(model));
    ReadSpelled(Public, g);
    ReadSpelled(Cursor, g);
    ReadSpelled(Public, g.Bare());
    ReadSpelled(Cursor, g.Bare());
  }

  lemma CounterpartSpelled(ns: Namespace, g: GrokId)
    requires Readable(g) && Normalize(Spell(ns, g)) == Spell(ns, g)
    ensures Counterpart(Spell(ns, g)) == Some(Spell(Other(ns), g))
  {
    hide Normalize, Prefix, ReadNamespace, EndsWith, VersionOf;
    var tail := (if g.tier == "" then "" else "-" + g.tier) + g.preview;
    forall x: Namespace ensures Spell(x, g) == Prefix(x) + (g.version + tail) {}
    ReadPrefixed(ns, g.version + tail);
    VersionRead(g.version, tail);
  }

  /** A route written in either namespace: a spelled id and its counterpart have the same candidates. */
  lemma CounterpartHasSameCandidates(ns: Namespace, g: GrokId, c: string)
    requires Readable(g) && Normalize(Spell(ns, g)) == Spell(ns, g)
    ensures var other := Counterpart(Spell(ns, g));
      other.Some? && (c in RouteCandidates(Spell(ns, g)) <==> c in RouteCandidates(other.value))
  {
    hide Normalize, Read, RouteCandidates, Readable, Counterpart, Spell;
    var n, other := Spell(ns, g), Spell(Other(ns), g);
    CounterpartSpelled(ns, g);
    CounterpartInvolution(n);
    ReadSpelled(ns, g);
    ReadSpelled(Other(ns), g);
    if g.tier != "" {
      TierCandidates(n, c);
      TierCandidates(other, c);
    } else {
      BareCandidates(n, c);
      BareCandidates(other, c);
    }
  }
}
