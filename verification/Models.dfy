/** Model ids: normalisation, the pattern match of a rule, and the two Grok namespaces. */
module Models {
  import opened Text
  import opened Glob

  // ---------------------------------------------------------------- normalisation

  function Lower(s: string): (t: string)
    ensures |t| == |s|
    ensures forall i :: 0 <= i < |s| ==> t[i] == LowerChar(s[i])
  {
    seq(|s|, i requires 0 <= i < |s| => LowerChar(s[i]))
  }

  function LowerChar(c: char): (d: char)
    ensures !('A' <= d <= 'Z')
    ensures d == c <==> !('A' <= c <= 'Z')
  {
    if 'A' <= c <= 'Z' then (c as int + 32) as char else c
  }

  /** `[1m]` or `[2m]` at the end goes, once. */
  function DropContextSize(s: string): (t: string)
    ensures |t| <= |s|
    ensures |t| == |s| ==> t == s && !EndsWith(s, "[1m]") && !EndsWith(s, "[2m]")
  {
    if EndsWith(s, "[1m]") || EndsWith(s, "[2m]") then s[..|s| - 4] else s
  }

  function LastOpen(s: string): (k: Option<nat>)
    ensures k.Some? ==> k.value < |s| && s[k.value] == '(' && '(' !in s[k.value + 1..]
    ensures k.None? ==> '(' !in s
  {
    if s == "" then None
    else if s[|s| - 1] == '(' then Some(|s| - 1)
    else
      var k := LastOpen(s[..|s| - 1]);
      assert k.Some? ==> s[k.value + 1..] == s[..|s| - 1][k.value + 1..] + [s[|s| - 1]];
      k
  }

  predicate IsAsciiSpace(c: char) {
    c == ' ' || c == '\t' || c == '\n' || c == '\r' || c == '\U{C}'
  }

  function WithoutSpace(s: string): string {
    if s == "" then "" else (if IsAsciiSpace(s[0]) then "" else [s[0]]) + WithoutSpace(s[1..])
  }

  /** Where a trailing marker like `(1M context)` starts. */
  function ContextMarker(s: string): (k: Option<nat>)
    ensures k.Some? ==> k.value < |s|
  {
    match LastOpen(s)
    case None => None
    case Some(open) =>
      if s[|s| - 1] == ')' && WithoutSpace(s[open + 1..|s| - 1]) in ["1mcontext", "2mcontext"] then Some(open) else None
  }

  function DropContextMarker(s: string): (t: string)
    ensures |t| <= |s|
    ensures |t| == |s| ==> t == s && ContextMarker(s).None?
  {
    match ContextMarker(s)
    case None => s
    case Some(open) => TrimEnd(s[..open])
  }

  predicate Wrapped(s: string) {
    || StartsWith(s, "cursor-plan:") || StartsWith(s, "cursor-ask:")
    || StartsWith(s, "cursor-agent:") || StartsWith(s, "cursor:")
  }

  /** One of the wrapper prefixes goes, once. */
  function DropWrapper(s: string): (t: string)
    ensures |t| <= |s|
    ensures |t| == |s| ==> t == s && !Wrapped(s)
  {
    if StartsWith(s, "cursor-plan:") then s[12..]
    else if StartsWith(s, "cursor-ask:") then s[11..]
    else if StartsWith(s, "cursor-agent:") then s[13..]
    else if StartsWith(s, "cursor:") then s[7..]
    else s
  }

  function Normalize(model: string): (n: string)
    ensures |n| <= |model|
  {
    Trim(DropWrapper(DropContextMarker(DropContextSize(Lower(Trim(model))))))
  }

  /** Nothing for normalisation to do but to unwrap. */
  predicate Tidy(m: string) {
    && Trim(m) == m
    && Lower(m) == m
    && !EndsWith(m, "[1m]") && !EndsWith(m, "[2m]")
    && ContextMarker(m).None?
  }

  /** Nothing for normalisation to do. */
  predicate Plain(m: string) {
    Tidy(m) && !Wrapped(m)
  }

  /** The fixed points of normalisation are the plain ids. */
  lemma FixedExactlyWhenPlain(m: string)
    ensures Normalize(m) == m <==> Plain(m)
  {
    hide Trim, ContextMarker, IsSpace, StartsWith, EndsWith;
    var a := Trim(m);
    var b := Lower(a);
    var c := DropContextSize(b);
    var d := DropContextMarker(c);
    var e := DropWrapper(d);
    if Plain(m) {
      assert e == m;
    }
  }

  // ---------------------------------------------------------------- one layer at a time

  lemma LastOpenIs(s: string, k: nat)
    requires k < |s| && s[k] == '(' && '(' !in s[k + 1..]
    ensures LastOpen(s) == Some(k)
  {
    var open := LastOpen(s).value;
  }

  lemma BehindPrefix(p: string, rest: string, i: nat)
    requires i < |p + rest| && (p + rest)[i] !in p
    ensures i >= |p|
  {}

  /** A marker lies wholly in what follows a prefix without parentheses. */
  lemma MarkerMoves(p: string, q: string, rest: string)
    requires '(' !in p && '(' !in q && rest != ""
    requires ContextMarker(q + rest).Some?
    ensures ContextMarker(p + rest).Some?
  {
    hide WithoutSpace;
    var m, n := p + rest, q + rest;
    var k := LastOpen(n).value;
    BehindPrefix(q, rest, k);
    var j := k - |q| + |p|;
    assert m[j + 1..] == n[k + 1..];
    LastOpenIs(m, j);
    assert m[j + 1..|m| - 1] == n[k + 1..|n| - 1];
  }

  lemma SuffixMoves(p: string, q: string, rest: string, suffix: string)
    requires suffix != "" && suffix[0] !in q
    requires EndsWith(q + rest, suffix)
    ensures EndsWith(p + rest, suffix)
  {
    var m, n := p + rest, q + rest;
    assert n[|n| - |suffix|..][0] == suffix[0];
    BehindPrefix(q, rest, |n| - |suffix|);
    assert m[|m| - |suffix|..] == rest[|rest| - |suffix|..] == n[|n| - |suffix|..];
  }

  lemma NotPrefixed(m: string, prefix: string, i: nat)
    requires i < |prefix| && i < |m| && m[i] != prefix[i]
    ensures !StartsWith(m, prefix)
  {
    assert |prefix| <= |m| ==> m[..|prefix|][i] == m[i];
  }

  lemma LowerMoves(p: string, q: string, rest: string)
    requires Lower(p + rest) == p + rest && Lower(q) == q
    ensures Lower(q + rest) == q + rest
  {
    hide LowerChar;
    var m, n := p + rest, q + rest;
    forall i | 0 <= i < |n| ensures Lower(n)[i] == n[i] {
      if i < |q| {
        assert n[i] == q[i] == Lower(q)[i];
      } else {
        assert n[i] == m[i - |q| + |p|] == Lower(m)[i - |q| + |p|];
      }
    }
  }

  lemma TrimMoves(p: string, q: string, rest: string)
    requires Trim(p + rest) == p + rest && rest != "" && q != "" && !IsSpace(q[0])
    ensures Trim(q + rest) == q + rest
  {
    hide IsSpace, Trim;
    var m, n := p + rest, q + rest;
    assert m[|m| - 1] == n[|n| - 1];
    assert n[0] == q[0];
  }

  lemma WrappingStaysTidy(m: string)
    requires Tidy(m) && m != ""
    ensures Tidy("cursor:" + m)
  {
    hide ContextMarker, EndsWith, IsSpace, Lower, Trim;
    var p, n := "cursor:", "cursor:" + m;
    CursorIsTidy();
    assert "" + m == m;
    LowerMoves("", p, m);
    TrimMoves("", p, m);
    if ContextMarker(n).Some? {
      MarkerMoves("", p, m);
    }
    if EndsWith(n, "[1m]") {
      SuffixMoves("", p, m, "[1m]");
    }
    if EndsWith(n, "[2m]") {
      SuffixMoves("", p, m, "[2m]");
    }
  }

  lemma CursorIsTidy()
    ensures Lower("cursor:") == "cursor:" && !IsSpace("cursor:"[0])
  {}

  /** A call takes one wrapper off and no more. */
  lemma OneWrapperPerCall(m: string)
    requires Tidy(m) && m != ""
    ensures Normalize("cursor:" + m) == m
  {
    hide Tidy, Trim, Lower, EndsWith, ContextMarker, DropWrapper;
    WrappingStaysTidy(m);
    TidyIsOnlyUnwrapped("cursor:" + m);
    TidyIsTrimmed(m);
    WrapperDrops(m);
  }

  lemma WrapperDrops(m: string)
    ensures DropWrapper("cursor:" + m) == m
  {
    hide StartsWith;
    var n := "cursor:" + m;
    assert n[6] == ':';
    NotPrefixed(n, "cursor-plan:", 6);
    NotPrefixed(n, "cursor-ask:", 6);
    NotPrefixed(n, "cursor-agent:", 6);
    StartsWithPrefix("cursor:", m);
    assert n[7..] == m;
  }

  lemma StartsWithPrefix(p: string, rest: string)
    ensures StartsWith(p + rest, p)
  {}

  lemma TidyIsTrimmed(m: string)
    requires Tidy(m)
    ensures Trim(m) == m
  {}

  lemma TidyIsOnlyUnwrapped(m: string)
    requires Tidy(m)
    ensures Normalize(m) == Trim(DropWrapper(m))
  {
    hide Trim, Lower, EndsWith, ContextMarker, DropWrapper;
  }

  /** An id wrapped twice keeps a layer: normalising twice differs from normalising once. */
  lemma NotIdempotent(m: string)
    requires Tidy(m) && m != ""
    ensures Normalize("cursor:" + ("cursor:" + m)) == "cursor:" + m
    ensures Normalize(Normalize("cursor:" + ("cursor:" + m))) == m
  {
    hide Tidy, Normalize;
    WrappingStaysTidy(m);
    OneWrapperPerCall(m);
    OneWrapperPerCall("cursor:" + m);
  }

  // ---------------------------------------------------------------- when one call is enough

  predicate IsCapital(c: char) {
    'A' <= c <= 'Z'
  }

  predicate NoCapitals(s: string) {
    forall c :: c in s ==> !IsCapital(c)
  }

  lemma LowerKeeps(s: string)
    ensures NoCapitals(Lower(s))
    ensures NoCapitals(s) ==> Lower(s) == s
  {
    if NoCapitals(s) {
      forall i | 0 <= i < |s| ensures Lower(s)[i] == s[i] {
        assert s[i] in s;
      }
    }
  }

  lemma {:induction false} TrimStartIsPart(s: string)
    ensures forall c :: c in TrimStart(s) ==> c in s
  {
    if s != [] && IsSpace(s[0]) {
      TrimStartIsPart(s[1..]);
    }
  }

  lemma {:induction false} TrimEndIsPart(s: string)
    ensures TrimEnd(s) <= s
  {
    if s != [] && IsSpace(s[|s| - 1]) {
      TrimEndIsPart(s[..|s| - 1]);
    }
  }

  /** What is cut out of a text without capitals has none. */
  lemma CutsAddNothing(s: string)
    requires NoCapitals(s)
    ensures NoCapitals(Trim(s)) && NoCapitals(DropContextSize(s)) && NoCapitals(DropContextMarker(s))
    ensures NoCapitals(DropWrapper(s))
  {
    hide IsSpace, IsCapital, ContextMarker, StartsWith, EndsWith, TrimStart, TrimEnd;
    TrimStartIsPart(s);
    TrimEndIsPart(TrimStart(s));
    if ContextMarker(s).Some? {
      TrimEndIsPart(s[..ContextMarker(s).value]);
    }
  }

  lemma TrimTwice(s: string)
    ensures Trim(Trim(s)) == Trim(s)
  {
    hide IsSpace;
  }

  /** Whatever it is given, a call leaves no blanks around the id and no capitals in it. */
  lemma NormalIsTrimmedAndLow(m: string)
    ensures var n := Normalize(m); Trim(n) == n && Lower(n) == n && NoCapitals(n)
  {
    hide NoCapitals, DropContextSize, DropContextMarker, DropWrapper, Lower, Trim;
    var b := Lower(Trim(m));
    var c := DropContextSize(b);
    var d := DropContextMarker(c);
    var e := DropWrapper(d);
    LowerKeeps(Trim(m));
    CutsAddNothing(b);
    CutsAddNothing(c);
    CutsAddNothing(d);
    CutsAddNothing(e);
    TrimTwice(e);
    LowerKeeps(Trim(e));
  }

  /** One call is enough for an id exactly when its result shows no further marker and no further wrapper; and a
      call that is not enough is followed by one that shortens the id. */
  lemma OneCallIsEnough(m: string)
    ensures var n := Normalize(m);
      && (Normalize(n) == n <==>
          !EndsWith(n, "[1m]") && !EndsWith(n, "[2m]") && ContextMarker(n).None? && !Wrapped(n))
      && (Normalize(n) != n ==> |Normalize(n)| < |n|)
  {
    hide Trim, Lower, EndsWith, ContextMarker, Wrapped, NoCapitals;
    var n := Normalize(m);
    NormalIsTrimmedAndLow(m);
    FixedExactlyWhenPlain(n);
    var c := DropContextSize(n);
    var d := DropContextMarker(c);
    assert Normalize(n) == Trim(DropWrapper(d));
  }

  // ---------------------------------------------------------------- one rule against one id

  const PREVIEW: string := "-preview"

  ghost predicate GlobHit(pattern: string, text: string) {
    Scan(pattern, text, 0, 0, NoStar)
  }

  /** A rule matches an id, or the id without its `-preview` marker. */
  ghost predicate Hits(pattern: string, model: string) {
    GlobHit(pattern, model)
    || (StripSuffix(model, PREVIEW).Some? && GlobHit(pattern, StripSuffix(model, PREVIEW).value))
  }

  method SandPatternMatches(pattern: string, model: string) returns (r: bool)
    ensures r == Hits(pattern, model)
    ensures Literal(pattern) ==> (r <==> pattern == model || pattern + PREVIEW == model)
    ensures '*' !in model ==>
      (r <==> Matches(pattern, model) || exists base :: base + PREVIEW == model && Matches(pattern, base))
  {
    HitsMeaning(pattern, model);
    r := GlobMatches(pattern, model);
    if !r {
      var base := StripSuffix(model, PREVIEW);
      if base.Some? {
        r := GlobMatches(pattern, base.value);
      }
    }
  }

  predicate Literal(pattern: string) {
    forall i :: 0 <= i < |pattern| ==> pattern[i] != '*' && pattern[i] != '?'
  }

  lemma HitsMeaning(pattern: string, model: string)
    ensures Literal(pattern) ==> (Hits(pattern, model) <==> pattern == model || pattern + PREVIEW == model)
    ensures '*' !in model ==>
      (Hits(pattern, model) <==>
        Matches(pattern, model) || exists base :: base + PREVIEW == model && Matches(pattern, base))
  {
    hide Scan, Matches;
    var stripped := StripSuffix(model, PREVIEW);
    ScanMeaning(pattern, model);
    if stripped.Some? {
      ScanMeaning(pattern, stripped.value);
    }
    forall base | base + PREVIEW == model ensures stripped == Some(base) {
      assert model[..|model| - |PREVIEW|] == base;
      assert model[|base|..] == PREVIEW;
    }
    if Literal(pattern) {
      LiteralMatches(pattern, model);
      if stripped.Some? {
        LiteralMatches(pattern, stripped.value);
      }
      if pattern + PREVIEW == model {
        assert stripped == Some(pattern);
      }
    }
  }
}
