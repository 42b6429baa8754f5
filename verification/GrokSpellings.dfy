/** The Grok spellings written out: the counterpart of an id, and the candidates of a route in their order. */
module GrokSpellings {
  import opened Text
  import opened Models
  import opened Grok

  function Here(cursor: bool): string {
    if cursor then "cursor-grok-" else "grok-"
  }

  function Mark(preview: bool): string {
    if preview then "-preview" else ""
  }

  predicate DigitsAndDots(v: string) {
    v != "" && forall c :: c in v ==> c in "0123456789."
  }

  /** What comes behind the version: nothing, or something set off by a dash. */
  predicate SetOff(tail: string) {
    tail == "" || tail[0] == '-'
  }

  // ---------------------------------------------------------------- reading what is written

  lemma SameDigits(v: string)
    ensures DigitsAndDots(v) <==> Numeric(v)
  {
    if Numeric(v) {
      forall c | c in v ensures c in "0123456789." {
        var i :| 0 <= i < |v| && v[i] == c;
        OneDigit(c);
      }
    } else if DigitsAndDots(v) {
      forall i | 0 <= i < |v| ensures '0' <= v[i] <= '9' || v[i] == '.' {
        assert v[i] in v;
        OneDigit(v[i]);
      }
    }
  }

  lemma OneDigit(c: char)
    ensures c in "0123456789." <==> ('0' <= c <= '9' || c == '.')
  {
    var digits := "0123456789.";
    if '0' <= c <= '9' {
      assert digits[c as int - '0' as int] == c;
    } else if c == '.' {
      assert digits[10] == c;
    }
  }

  lemma HereIs(cursor: bool)
    ensures Here(cursor) == Prefix(if cursor then Cursor else Public)
  {}

  lemma {:induction false} VersionIs(v: string, tail: string)
    requires '-' !in v && SetOff(tail)
    ensures VersionOf(v + tail) == v
  {
    if v == "" {
      assert v + tail == tail;
    } else {
      assert (v + tail)[0] == v[0] && (v + tail)[1..] == v[1..] + tail;
      VersionIs(v[1..], tail);
    }
  }

  lemma PresentedIs(base: string, preview: bool)
    requires !preview ==> !EndsWith(base, "-preview")
    ensures Presented(base + Mark(preview)) == (base, Mark(preview))
  {
    var n := base + Mark(preview);
    if preview {
      assert n[|n| - 8..] == "-preview" && n[..|n| - 8] == base;
    } else {
      assert n == base;
    }
  }

  lemma DigitsHaveNoDash(v: string)
    requires DigitsAndDots(v)
    ensures '-' !in v
  {}

  // ---------------------------------------------------------------- counterparts

  /** A numbered id has its counterpart in the other namespace, with everything behind the namespace unchanged. */
  lemma CounterpartIsSpelled(model: string, cursor: bool, v: string, tail: string)
    requires DigitsAndDots(v) && SetOff(tail) && Normalize(model) == Here(cursor) + (v + tail)
    ensures Counterpart(model) == Some(Here(!cursor) + (v + tail))
  {
    hide Normalize, Numeric, VersionOf, ReadNamespace, Prefix;
    HereIs(cursor);
    HereIs(!cursor);
    ReadPrefixed(if cursor then Cursor else Public, v + tail);
    DigitsHaveNoDash(v);
    VersionIs(v, tail);
    SameDigits(v);
  }

  /** No other id has one. */
  lemma CounterpartOnlyOfNumbered(model: string)
    requires Counterpart(model).Some?
    ensures exists cursor, v, tail :: DigitsAndDots(v) && SetOff(tail) && Normalize(model) == Here(cursor) + (v + tail)
  {
    hide Normalize, Numeric, ReadNamespace;
    var s := ReadNamespace(Normalize(model)).value;
    var v := VersionOf(s.rest);
    SameDigits(v);
    HereIs(s.ns == Cursor);
    assert s.rest == v + s.rest[|v|..];
    assert SetOff(s.rest[|v|..]);
  }

  // ---------------------------------------------------------------- candidates

  lemma Spelled(model: string, cursor: bool, rest: string, preview: bool)
    requires Normalize(model) == Here(cursor) + rest + Mark(preview)
    requires !preview ==> !EndsWith(Here(cursor) + rest, "-preview")
    ensures RouteCandidates(model)
         == SpelledCandidates(Normalize(model), Spelling(if cursor then Cursor else Public, rest), Mark(preview))
  {
    hide Normalize, SpelledCandidates, ReadNamespace, Prefix, EndsWith;
    HereIs(cursor);
    PresentedIs(Here(cursor) + rest, preview);
    ReadPrefixed(if cursor then Cursor else Public, rest);
  }

  lemma DifferentHere(cursor: bool, x: string, y: string)
    ensures Here(cursor) + x != Here(!cursor) + y
  {
    assert (Here(cursor) + x)[0] == Here(cursor)[0] && (Here(!cursor) + y)[0] == Here(!cursor)[0];
  }

  lemma PushNew(candidates: seq<string>, x: string)
    requires x != ""
    ensures PushUnique(candidates, x) == if x in candidates then candidates else candidates + [x]
  {}

  lemma PushThree(n: string, x: string, y: string, z: string)
    requires x != "" && y != "" && z != "" && n != x && n != y && n != z && x != y && x != z && y != z
    ensures PushUnique(PushUnique(PushUnique([n], x), y), z) == [n, x, y, z]
  {
    hide PushUnique;
    PushNew([n], x);
    PushNew([n, x], y);
    PushNew([n, x, y], z);
    assert [n] + [x] == [n, x] && [n, x] + [y] == [n, x, y] && [n, x, y] + [z] == [n, x, y, z];
  }

  /** What the spelling of a tier pushes. */
  lemma TierPushes(n: string, cursor: bool, v: string, t: string, m: string)
    requires DigitsAndDots(v) && t != ""
    ensures SpelledCandidates(n, Spelling(if cursor then Cursor else Public, v + ("-" + t)), m)
         == PushUnique(PushUnique(PushUnique([n], Here(!cursor) + (v + ("-" + t)) + m), "grok-" + v + m),
                       "cursor-grok-" + v + m)
  {
    hide Numeric, VersionOf, Prefix, PushUnique;
    var rest := v + ("-" + t);
    DigitsHaveNoDash(v);
    VersionIs(v, "-" + t);
    SameDigits(v);
    HereIs(true);
    HereIs(false);
    assert rest[|v| + 1..] == t;
    SpelledOut(Other(if cursor then Cursor else Public), v, t);
  }

  /** An explicit tier: the id, the same tier in the other namespace, then the bare family in both. */
  lemma TierList(model: string, cursor: bool, v: string, t: string, preview: bool)
    requires DigitsAndDots(v) && t != "" && Normalize(model) == Here(cursor) + (v + ("-" + t)) + Mark(preview)
    requires !preview ==> !EndsWith(Here(cursor) + (v + ("-" + t)), "-preview")
    ensures RouteCandidates(model) ==
      [Normalize(model), Here(!cursor) + (v + ("-" + t)) + Mark(preview),
       "grok-" + v + Mark(preview), "cursor-grok-" + v + Mark(preview)]
  {
    hide Normalize, DigitsAndDots, Here, EndsWith, RouteCandidates, SpelledCandidates, Mark, PushUnique;
    var rest, m := v + ("-" + t), Mark(preview);
    Spelled(model, cursor, rest, preview);
    TierPushes(Normalize(model), cursor, v, t, m);
    FourApart(cursor, rest, v, m);
    HereAre();
    PushThree(Normalize(model), Here(!cursor) + rest + m, "grok-" + v + m, "cursor-grok-" + v + m);
  }

  lemma HereAre()
    ensures Here(false) == "grok-" && Here(true) == "cursor-grok-"
  {}

  lemma FourApart(cursor: bool, rest: string, v: string, m: string)
    requires |rest| > |v|
    ensures var n, other, public, cur := Here(cursor) + rest + m, Here(!cursor) + rest + m, Here(false) + v + m,
                                         Here(true) + v + m;
      n != other && n != public && n != cur && other != public && other != cur && public != cur
  {
    var n, other, public, cur := Here(cursor) + rest + m, Here(!cursor) + rest + m, Here(false) + v + m,
                                 Here(true) + v + m;
    assert n[0] == Here(cursor)[0] && other[0] == Here(!cursor)[0] && public[0] == 'g' && cur[0] == 'c';
  }

  /** A bare family: the id, the other namespace, then the default tier in both. */
  lemma BareList(model: string, cursor: bool, v: string, preview: bool)
    requires '-' !in v && Normalize(model) == Here(cursor) + v + Mark(preview)
    requires !preview ==> !EndsWith(Here(cursor) + v, "-preview")
    ensures RouteCandidates(model) ==
      [Normalize(model), Here(!cursor) + v + Mark(preview),
       "grok-" + v + "-high-fast" + Mark(preview), "cursor-grok-" + v + "-high-fast" + Mark(preview)]
  {
    hide Normalize, Here, EndsWith, RouteCandidates, SpelledCandidates, Mark, PushUnique;
    var m := Mark(preview);
    Spelled(model, cursor, v, preview);
    BarePushes(Normalize(model), cursor, v, m);
    TwoFamilies(cursor, v, m);
    FastApart(cursor, v, m);
    HereAre();
    var n, other := Normalize(model), Here(!cursor) + v + m;
    PushNew([n], other);
    assert [n] + [other] == [n, other];
    PushNew([n, other], Here(false) + v + m);
    PushNew([n, other], Here(true) + v + m);
    PushThree(n, other, "grok-" + v + "-high-fast" + m, "cursor-grok-" + v + "-high-fast" + m);
  }

  /** What the spelling of a bare family pushes. */
  lemma BarePushes(n: string, cursor: bool, v: string, m: string)
    requires '-' !in v
    ensures SpelledCandidates(n, Spelling(if cursor then Cursor else Public, v), m)
         == PushUnique(PushUnique(PushUnique(PushUnique(PushUnique([n], Here(!cursor) + v + m), Here(false) + v + m),
                                             Here(true) + v + m),
                                  "grok-" + v + "-high-fast" + m), "cursor-grok-" + v + "-high-fast" + m)
  {
    hide Numeric, VersionOf, Prefix, PushUnique;
    assert v + "" == v;
    VersionIs(v, "");
    HereIs(true);
    HereIs(false);
    FastIs(v);
  }

  lemma FastIs(v: string)
    ensures Variant(Public, v, "high-fast") == "grok-" + v + "-high-fast"
    ensures Variant(Cursor, v, "high-fast") == "cursor-grok-" + v + "-high-fast"
  {}

  lemma TwoFamilies(cursor: bool, v: string, m: string)
    ensures var n, other := Here(cursor) + v + m, Here(!cursor) + v + m;
      && n != other && Here(false) + v + m in [n, other] && Here(true) + v + m in [n, other]
  {
    var n, other := Here(cursor) + v + m, Here(!cursor) + v + m;
    assert n[0] == Here(cursor)[0] && other[0] == Here(!cursor)[0];
  }

  lemma FastApart(cursor: bool, v: string, m: string)
    ensures var n, other, fast, cur := Here(cursor) + v + m, Here(!cursor) + v + m, Here(false) + v + "-high-fast" + m,
                                       Here(true) + v + "-high-fast" + m;
      n != fast && n != cur && other != fast && other != cur && fast != cur
  {
    var n, other, fast, cur := Here(cursor) + v + m, Here(!cursor) + v + m, Here(false) + v + "-high-fast" + m,
                               Here(true) + v + "-high-fast" + m;
    assert n[0] == Here(cursor)[0] && other[0] == Here(!cursor)[0] && fast[0] == 'g' && cur[0] == 'c';
  }

  /** A dash with nothing behind it: the id, the family in the other namespace and in its own, then the default tier
      in both. */
  lemma DashList(model: string, cursor: bool, v: string, preview: bool)
    requires DigitsAndDots(v) && Normalize(model) == Here(cursor) + (v + "-") + Mark(preview)
    ensures RouteCandidates(model) ==
      [Normalize(model), Here(!cursor) + v + Mark(preview), Here(cursor) + v + Mark(preview),
       "grok-" + v + "-high-fast" + Mark(preview), "cursor-grok-" + v + "-high-fast" + Mark(preview)]
  {
    hide Normalize, DigitsAndDots, Here, EndsWith, RouteCandidates, SpelledCandidates, Mark, PushUnique;
    var rest, m := v + "-", Mark(preview);
    NoMarkerBehindDash(Here(cursor) + rest);
    Spelled(model, cursor, rest, preview);
    DashPushes(Normalize(model), cursor, v, m);
    TwoFamilies(cursor, v, m);
    FastApart(cursor, v, m);
    DashApart(cursor, v, m);
    HereAre();
    var n, fast, cur := Normalize(model), "grok-" + v + "-high-fast" + m, "cursor-grok-" + v + "-high-fast" + m;
    PushFive(n, cursor, Here(!cursor) + v + m, Here(cursor) + v + m, fast, cur);
  }

  /** The family of the other namespace, then both families, then the two fast ones. */
  lemma PushFive(n: string, cursor: bool, other: string, own: string, fast: string, cur: string)
    requires other != "" && own != "" && fast != "" && cur != ""
    requires n !in [other, own, fast, cur] && other != own && fast !in [other, own] && cur !in [other, own, fast]
    ensures var public, family := if cursor then other else own, if cursor then own else other;
      PushUnique(PushUnique(PushUnique(PushUnique(PushUnique([n], other), public), family), fast), cur)
        == [n, other, own, fast, cur]
  {
    hide PushUnique;
    PushNew([n], other);
    assert [n] + [other] == [n, other];
    PushNew([n, other], own);
    PushNew([n, other], other);
    assert [n, other] + [own] == [n, other, own];
    PushNew([n, other, own], other);
    PushNew([n, other, own], fast);
    assert [n, other, own] + [fast] == [n, other, own, fast];
    PushNew([n, other, own, fast], cur);
    assert [n, other, own, fast] + [cur] == [n, other, own, fast, cur];
  }

  /** What a version with a dash and nothing behind it pushes. */
  lemma DashPushes(n: string, cursor: bool, v: string, m: string)
    requires DigitsAndDots(v)
    ensures SpelledCandidates(n, Spelling(if cursor then Cursor else Public, v + "-"), m)
         == PushUnique(PushUnique(PushUnique(PushUnique(PushUnique([n], Here(!cursor) + v + m), Here(false) + v + m),
                                             Here(true) + v + m),
                                  "grok-" + v + "-high-fast" + m), "cursor-grok-" + v + "-high-fast" + m)
  {
    hide Numeric, VersionOf, Prefix, PushUnique;
    var rest := v + "-";
    DigitsHaveNoDash(v);
    VersionIs(v, "-");
    SameDigits(v);
    HereIs(true);
    HereIs(false);
    assert rest[|v| + 1..] == "";
    FastIs(v);
  }

  lemma NoMarkerBehindDash(s: string)
    requires s != "" && s[|s| - 1] == '-'
    ensures !EndsWith(s, "-preview")
  {
    assert |s| >= 8 ==> s[|s| - 8..][7] == '-';
  }

  lemma DashApart(cursor: bool, v: string, m: string)
    ensures var n, fast, cur := Here(cursor) + (v + "-") + m, Here(false) + v + "-high-fast" + m,
                                Here(true) + v + "-high-fast" + m;
      n != Here(cursor) + v + m && n != Here(!cursor) + v + m && n != fast && n != cur
  {
    var n, fast, cur := Here(cursor) + (v + "-") + m, Here(false) + v + "-high-fast" + m,
                        Here(true) + v + "-high-fast" + m;
    var own, other := Here(cursor) + v + m, Here(!cursor) + v + m;
    assert n[0] == Here(cursor)[0] && other[0] == Here(!cursor)[0] && fast[0] == 'g' && cur[0] == 'c';
  }

  /** An id in one of the two namespaces, with a version that is all there is or is a number. */
  predicate WrittenAs(n: string, cursor: bool, v: string, tail: string, preview: bool) {
    && n == Here(cursor) + (v + tail) + Mark(preview)
    && (!preview ==> !EndsWith(n, "-preview"))
    && '-' !in v && (tail == "" || (tail[0] == '-' && DigitsAndDots(v)))
  }

  /** Any other id is its only candidate. */
  lemma OtherwiseAlone(model: string)
    requires Normalize(model) != ""
    requires forall cursor, v, tail, preview :: !WrittenAs(Normalize(model), cursor, v, tail, preview)
    ensures RouteCandidates(model) == [Normalize(model)]
  {
    hide Normalize, Numeric, ReadNamespace, Prefix;
    var n := Normalize(model);
    var (base, mark) := Presented(n);
    match ReadNamespace(base) {
      case None =>
      case Some(s) =>
        var v := VersionOf(s.rest);
        SameDigits(v);
        HereIs(s.ns == Cursor);
        var tail, preview := s.rest[|v|..], mark != "";
        assert s.rest == v + tail;
        assert n == Here(s.ns == Cursor) + (v + tail) + Mark(preview);
        assert !WrittenAs(n, s.ns == Cursor, v, tail, preview);
    }
  }
}
