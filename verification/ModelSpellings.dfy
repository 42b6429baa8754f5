/** The ways to write a model id: exactly what normalisation brings to the same id. */
module ModelSpellings {
  import opened Text
  import opened Models

  const CAPITALS: string := "ABCDEFGHIJKLMNOPQRSTUVWXYZ"
  const SMALL: string := "abcdefghijklmnopqrstuvwxyz"

  lemma LowerIsTheAlphabet(k: nat)
    requires k < 26
    ensures Lower([CAPITALS[k]]) == [SMALL[k]]
  {}

  predicate Wrapper(p: string) {
    p in ["", "cursor:", "cursor-plan:", "cursor-ask:", "cursor-agent:"]
  }

  predicate Size(s: string) {
    s in ["", "[1m]", "[2m]"]
  }

  /** The letters of a word in their order, with ASCII blanks among them. */
  predicate Spaced(s: string, word: string) {
    if s == "" then word == ""
    else if s[0] in " \t\n\r\U{C}" then Spaced(s[1..], word)
    else word != "" && word[0] == s[0] && Spaced(s[1..], word[1..])
  }

  /** A context size in words between parentheses. */
  predicate Context(s: string) {
    s == "" || (|s| >= 2 && s[0] == '(' && s[|s| - 1] == ')' &&
                (Spaced(s[1..|s| - 1], "1mcontext") || Spaced(s[1..|s| - 1], "2mcontext")))
  }

  /** The pieces of a spelling, from left to right. */
  datatype Pieces = Pieces(front: string, wrapper: string, gap: string, behind: string, context: string, size: string,
                           back: string)

  function Head(x: Pieces): string {
    x.front + x.wrapper + x.gap
  }

  function Tail(x: Pieces): string {
    x.behind + x.context + x.size + x.back
  }

  function Around(x: Pieces, m: string): string {
    Head(x) + m + Tail(x)
  }

  predicate Proper(x: Pieces) {
    && Blank(x.front) && Blank(x.gap) && Blank(x.behind) && Blank(x.back)
    && Wrapper(x.wrapper) && Context(x.context) && Size(x.size)
  }

  /** The text is the id in any case, with at most one wrapper in front and the two context markers behind it, and
      blanks anywhere but between the markers. */
  ghost predicate Spells(raw: string, m: string) {
    exists x: Pieces :: Proper(x) && Lower(raw) == Around(x, m)
  }

  // ---------------------------------------------------------------- case and blanks

  lemma LowKeepsBlanks(c: char)
    ensures IsSpace(LowerChar(c)) <==> IsSpace(c)
  {}

  lemma {:induction false} LowTrimStart(s: string)
    ensures TrimStart(Lower(s)) == Lower(TrimStart(s))
  {
    hide IsSpace;
    if s != "" {
      LowKeepsBlanks(s[0]);
      assert Lower(s)[1..] == Lower(s[1..]);
      LowTrimStart(s[1..]);
    }
  }

  lemma {:induction false} LowTrimEnd(s: string)
    ensures TrimEnd(Lower(s)) == Lower(TrimEnd(s))
  {
    hide IsSpace;
    if s != "" {
      LowKeepsBlanks(s[|s| - 1]);
      assert Lower(s)[..|s| - 1] == Lower(s[..|s| - 1]);
      LowTrimEnd(s[..|s| - 1]);
    }
  }

  lemma NormalizeLow(raw: string)
    ensures Normalize(raw) == Trim(DropWrapper(DropContextMarker(DropContextSize(Trim(Lower(raw))))))
  {
    hide TrimStart, TrimEnd, Lower, DropWrapper, DropContextMarker, DropContextSize;
    LowTrimStart(raw);
    LowTrimEnd(TrimStart(raw));
  }

  lemma BlanksAreBlank(b: string)
    requires Blank(b)
    ensures '[' !in b && '(' !in b && ')' !in b && ']' !in b
    ensures forall c :: c in b ==> !('a' <= c <= 'z') && c != ':' && c != '-'
  {}

  lemma BlankJoined(a: string, b: string)
    ensures Blank(a + b) <==> Blank(a) && Blank(b)
  {
    hide IsSpace;
    if Blank(a + b) {
      assert forall i :: 0 <= i < |a| ==> a[i] == (a + b)[i];
      assert forall i :: 0 <= i < |b| ==> b[i] == (a + b)[|a| + i];
    }
  }

  lemma {:induction false} SpacedIs(s: string, word: string)
    requires forall c :: c in word ==> !IsAsciiSpace(c)
    ensures Spaced(s, word) <==> WithoutSpace(s) == word
  {
    if s != "" {
      if s[0] in " \t\n\r\U{C}" {
        assert IsAsciiSpace(s[0]);
        assert WithoutSpace(s) == WithoutSpace(s[1..]);
        SpacedIs(s[1..], word);
      } else {
        assert !IsAsciiSpace(s[0]);
        if word != "" {
          SpacedIs(s[1..], word[1..]);
          assert word == [word[0]] + word[1..];
        }
      }
    }
  }

  lemma {:induction false} SpacedHasNone(s: string, word: string, c: char)
    requires Spaced(s, word) && c !in word && c !in " \t\n\r\U{C}"
    ensures c !in s
  {
    if s != "" {
      if s[0] in " \t\n\r\U{C}" {
        SpacedHasNone(s[1..], word, c);
      } else {
        SpacedHasNone(s[1..], word[1..], c);
      }
    }
  }

  // ---------------------------------------------------------------- a spelling is normalised to its id

  /** A context marker at the end is found where it starts. */
  lemma MarkerFound(s: string, context: string)
    requires Context(context) && context != ""
    ensures ContextMarker(s + context) == Some(|s|)
  {
    hide WithoutSpace, Spaced, LastOpen;
    var n, inner := s + context, context[1..|context| - 1];
    var word := if Spaced(inner, "1mcontext") then "1mcontext" else "2mcontext";
    SpacedHasNone(inner, word, '(');
    InnerOf(s, context);
    LastOpenIs(n, |s|);
    SpacedIs(inner, word);
  }

  lemma InnerOf(s: string, context: string)
    requires |context| >= 2
    ensures var n, inner := s + context, context[1..|context| - 1];
      && n[|s|] == context[0] && n[|n| - 1] == context[|context| - 1]
      && n[|s| + 1..|n| - 1] == inner && n[|s| + 1..] == inner + [context[|context| - 1]]
  {}

  lemma NoMarkerBehind(s: string)
    requires s == "" || s[|s| - 1] != ')'
    ensures ContextMarker(s).None?
  {}

  lemma SizeDrops(s: string, size: string)
    requires Size(size) && size != ""
    ensures DropContextSize(s + size) == s
  {
    var n := s + size;
    assert n[|n| - 4..] == size && n[..|n| - 4] == s;
  }

  lemma NoSize(s: string)
    requires s == "" || s[|s| - 1] != ']'
    ensures DropContextSize(s) == s
  {}

  lemma WrapperPieces(p: string)
    requires Wrapper(p)
    ensures '[' !in p && '(' !in p && (p != "" ==> !IsSpace(p[0]))
  {}

  /** The id in front of the markers, and whether anything is left of the blanks behind it. */
  lemma MarkersDrop(p: string, m: string, behind: string, context: string, size: string)
    requires '(' !in p && '[' !in p && m != "" && Plain(m) && Blank(behind) && Context(context) && Size(size)
    requires context == "" && size == "" ==> behind == ""
    ensures DropContextMarker(DropContextSize(p + m + behind + context + size))
         == p + m + if context == "" then behind else ""
  {
    hide Trim, Lower, ContextMarker, EndsWith, IsSpace, Blank, DropContextSize, TrimEnd;
    var s := p + m + behind + context;
    BlanksAreBlank(behind);
    if size != "" {
      SizeDrops(s, size);
    } else {
      assert s + size == s;
      if context != "" {
        assert s[|s| - 1] == ')';
        NoSize(s);
      } else {
        assert s == p + m;
        NoSizeInFront(p, m);
      }
    }
    if context != "" {
      MarkerFound(p + m + behind, context);
      assert s == p + m + behind + context && s[..|p + m + behind|] == p + m + behind;
      PlainEnds(m);
      assert (p + m)[|p + m| - 1] == m[|m| - 1];
      TrimEndOf(p + m, behind);
      assert p + m + "" == p + m;
    } else {
      assert s == p + m + behind;
      NoContextInFront(p, m, behind);
    }
  }

  lemma PlainEnds(m: string)
    requires Plain(m) && m != ""
    ensures !IsSpace(m[0]) && !IsSpace(m[|m| - 1])
  {}

  lemma NoSizeInFront(p: string, m: string)
    requires '[' !in p && Plain(m) && m != ""
    ensures DropContextSize(p + m) == p + m
  {
    hide EndsWith, Trim, Lower, ContextMarker;
    assert "" + m == m;
    if EndsWith(p + m, "[1m]") {
      SuffixMoves("", p, m, "[1m]");
    }
    if EndsWith(p + m, "[2m]") {
      SuffixMoves("", p, m, "[2m]");
    }
  }

  lemma NoContextInFront(p: string, m: string, behind: string)
    requires '(' !in p && Plain(m) && m != "" && Blank(behind)
    ensures DropContextMarker(p + m + behind) == p + m + behind
  {
    hide EndsWith, Trim, Lower, ContextMarker;
    if behind == "" {
      assert p + m + behind == p + m && "" + m == m;
      if ContextMarker(p + m).Some? {
        MarkerMoves("", p, m);
      }
    } else {
      var s := p + m + behind;
      assert s[|s| - 1] == behind[|behind| - 1];
      BlanksAreBlank(behind);
      NoMarkerBehind(s);
    }
  }

  lemma WrapperDrops(p: string, rest: string)
    requires Wrapper(p) && p != ""
    ensures DropWrapper(p + rest) == rest
  {
    hide StartsWith;
    var n := p + rest;
    StartsWithPrefix(p, rest);
    assert n[|p|..] == rest;
    if p == "cursor:" {
      assert n[6] == ':';
      NotPrefixed(n, "cursor-plan:", 6);
      NotPrefixed(n, "cursor-ask:", 6);
      NotPrefixed(n, "cursor-agent:", 6);
    } else if p == "cursor-ask:" {
      assert n[8] == 's';
      NotPrefixed(n, "cursor-plan:", 8);
    } else if p == "cursor-agent:" {
      assert n[8] == 'g';
      NotPrefixed(n, "cursor-plan:", 8);
      NotPrefixed(n, "cursor-ask:", 8);
    }
  }

  lemma StartsMoves(m: string, behind: string, prefix: string)
    requires !StartsWith(m, prefix) && Blank(behind) && forall c :: c in prefix ==> !IsSpace(c)
    ensures !StartsWith(m + behind, prefix)
  {
    hide IsSpace;
    var n := m + behind;
    if |m| >= |prefix| {
      assert n[..|prefix|] == m[..|prefix|];
    } else if |n| >= |prefix| {
      assert n[|m|] == behind[0] && prefix[|m|] in prefix;
      NotPrefixed(n, prefix, |m|);
    }
  }

  lemma PrefixesHaveNoBlanks()
    ensures forall c :: c in "cursor-plan:" ==> !IsSpace(c)
    ensures forall c :: c in "cursor-ask:" ==> !IsSpace(c)
    ensures forall c :: c in "cursor-agent:" ==> !IsSpace(c)
    ensures forall c :: c in "cursor:" ==> !IsSpace(c)
  {}

  lemma NotWrapped(m: string, behind: string)
    requires !Wrapped(m) && Blank(behind)
    ensures DropWrapper(m + behind) == m + behind
  {
    hide StartsWith, Blank;
    PrefixesHaveNoBlanks();
    StartsMoves(m, behind, "cursor-plan:");
    StartsMoves(m, behind, "cursor-ask:");
    StartsMoves(m, behind, "cursor-agent:");
    StartsMoves(m, behind, "cursor:");
  }

  /** The blanks in front of the id that trimming leaves. */
  function Gap(x: Pieces): string {
    if x.wrapper == "" then "" else x.gap
  }

  /** The blanks behind the id that trimming leaves. */
  function Rest(x: Pieces): string {
    if x.context == "" && x.size == "" then "" else x.behind
  }

  function Front(x: Pieces): string {
    if x.wrapper == "" then x.front + x.gap else x.front
  }

  function Back(x: Pieces): string {
    if x.context == "" && x.size == "" then x.behind + x.back else x.back
  }

  lemma Regrouped(x: Pieces, m: string)
    ensures Around(x, m) == Front(x) + ((x.wrapper + Gap(x)) + m + Rest(x) + x.context + x.size) + Back(x)
  {
    hide Head, Tail, Front, Back, Gap, Rest;
    HeadParts(x);
    TailParts(x);
    var p, kept := x.wrapper + Gap(x), Rest(x) + x.context + x.size;
    Shifted(Front(x), p, m, kept, Back(x));
    assert p + m + Rest(x) + x.context + x.size == p + m + kept;
  }

  lemma HeadParts(x: Pieces)
    ensures Head(x) == Front(x) + (x.wrapper + Gap(x))
  {}

  lemma TailParts(x: Pieces)
    ensures Tail(x) == (Rest(x) + x.context + x.size) + Back(x)
  {}

  lemma Shifted(a: string, p: string, m: string, t: string, b: string)
    ensures (a + p) + m + (t + b) == a + (p + m + t) + b
  {}

  lemma OuterBlanksGo(x: Pieces, m: string)
    requires Plain(m) && m != "" && Proper(x)
    ensures Trim(Around(x, m)) == (x.wrapper + Gap(x)) + m + Rest(x) + x.context + x.size
  {
    hide Trim, Plain, IsSpace, Blank, Context, Size, Wrapper, Around;
    PlainEnds(m);
    BlankJoined(x.front, x.gap);
    BlankJoined(x.behind, x.back);
    Regrouped(x, m);
    Edges(x, x.wrapper + Gap(x), m, Rest(x));
    TrimOf(Front(x), (x.wrapper + Gap(x)) + m + Rest(x) + x.context + x.size, Back(x));
  }

  lemma WrapperGoes(x: Pieces, m: string, left: string)
    requires Plain(m) && m != "" && Proper(x) && Blank(left)
    ensures Trim(DropWrapper((x.wrapper + Gap(x)) + m + left)) == m
  {
    hide Trim, IsSpace, Blank, Context, Size, Wrapper, DropWrapper, Wrapped, Lower, EndsWith, ContextMarker;
    PlainEnds(m);
    NoneIsBlank();
    if x.wrapper == "" {
      assert (x.wrapper + Gap(x)) + m + left == m + left;
      NotWrapped(m, left);
      TrimOf("", m, left);
      assert "" + m + left == m + left;
    } else {
      assert (x.wrapper + Gap(x)) + m + left == x.wrapper + (x.gap + m + left);
      WrapperDrops(x.wrapper, x.gap + m + left);
      TrimOf(x.gap, m, left);
    }
  }

  lemma PiecesFit(x: Pieces)
    requires Proper(x)
    ensures var p := x.wrapper + Gap(x); '(' !in p && '[' !in p
    ensures Blank(Gap(x)) && Blank(Rest(x)) && (x.context == "" && x.size == "" ==> Rest(x) == "")
  {
    hide IsSpace, Blank, Context, Size, Wrapper;
    NoneIsBlank();
    WrapperPieces(x.wrapper);
    BlanksAreBlank(Gap(x));
  }

  /** Whatever has no wrapper and no markers of its own is what all its spellings are brought to. */
  lemma SpelledIsNormal(raw: string, m: string, x: Pieces)
    requires Plain(m) && m != "" && Proper(x) && Lower(raw) == Around(x, m)
    ensures Normalize(raw) == m
  {
    hide Trim, Lower, Plain, IsSpace, Blank, DropContextSize, DropContextMarker, DropWrapper, Context, Normalize,
         Around, Gap, Rest, Wrapper, Size;
    NormalizeLow(raw);
    OuterBlanksGo(x, m);
    PiecesFit(x);
    NoneIsBlank();
    MarkersDrop(x.wrapper + Gap(x), m, Rest(x), x.context, x.size);
    WrapperGoes(x, m, if x.context == "" then Rest(x) else "");
  }

  lemma NoneIsBlank()
    ensures Blank("")
  {}

  /** What stands at the two ends is no blank. */
  lemma Edges(x: Pieces, p: string, m: string, behind: string)
    requires Proper(x) && m != "" && !IsSpace(m[0]) && !IsSpace(m[|m| - 1])
    requires p == x.wrapper + (if x.wrapper == "" then "" else x.gap)
    requires x.context == "" && x.size == "" ==> behind == ""
    ensures var s := p + m + behind + x.context + x.size;
      s != "" && !IsSpace(s[0]) && !IsSpace(s[|s| - 1])
  {
    hide IsSpace, Spaced, Blank;
    var s := p + m + behind + x.context + x.size;
    WrapperPieces(x.wrapper);
    Brackets();
    if x.wrapper == "" {
      assert s[0] == m[0];
    } else {
      assert s[0] == x.wrapper[0];
    }
    if x.size != "" {
      assert s[|s| - 1] == x.size[3];
    } else if x.context != "" {
      assert s[|s| - 1] == x.context[|x.context| - 1];
    } else {
      assert s == p + m && s[|s| - 1] == m[|m| - 1];
    }
  }

  lemma Brackets()
    ensures !IsSpace(']') && !IsSpace(')')
  {}

  // ---------------------------------------------------------------- every text spells its normal form

  lemma WrapperCut(s: string) returns (p: string)
    ensures Wrapper(p) && s == p + DropWrapper(s)
  {
    p := s[..|s| - |DropWrapper(s)|];
    assert "cursor-plan:"[..12] == "cursor-plan:";
  }

  lemma SizeCut(s: string) returns (size: string)
    ensures Size(size) && s == DropContextSize(s) + size
  {
    size := if EndsWith(s, "[1m]") then "[1m]" else if EndsWith(s, "[2m]") then "[2m]" else "";
  }

  lemma ContextCut(s: string) returns (h: string, context: string)
    ensures Blank(h) && Context(context) && s == DropContextMarker(s) + h + context
  {
    hide WithoutSpace, IsSpace, TrimEnd, Spaced;
    NoneIsBlank();
    match ContextMarker(s) {
      case None =>
        h, context := "", "";
        assert s + "" + "" == s;
      case Some(open) =>
        h := TrimEndCuts(s[..open]);
        context := s[open..];
        assert s == s[..open] + context;
        assert context[1..|context| - 1] == s[open + 1..|s| - 1];
        assert context[|context| - 1] == s[|s| - 1];
        assert s[|s| - 1] == ')' && s[open] == '(';
        SpacedIs(s[open + 1..|s| - 1], "1mcontext");
        SpacedIs(s[open + 1..|s| - 1], "2mcontext");
    }
  }

  /** The pieces of a trimmed text in small letters. */
  lemma InnerPieces(s: string) returns (x: Pieces)
    ensures Proper(x) && x.front == x.back == ""
    ensures s == Around(x, Trim(DropWrapper(DropContextMarker(DropContextSize(s)))))
  {
    hide Trim, Lower, IsSpace, Blank, DropContextSize, DropContextMarker, DropWrapper, Context, Wrapper, Size;
    var s1 := DropContextSize(s);
    var s2 := DropContextMarker(s1);
    var s3 := DropWrapper(s2);
    var size := SizeCut(s);
    var h, context := ContextCut(s1);
    var wrapper := WrapperCut(s2);
    var gap, behind := TrimCuts(s3);
    BlankJoined(behind, h);
    NoneIsBlank();
    x := Pieces("", wrapper, gap, behind + h, context, size, "");
    Assembled(x, Trim(s3), behind, h);
  }

  lemma Assembled(x: Pieces, m: string, behind: string, h: string)
    requires x.front == x.back == "" && x.behind == behind + h
    ensures ((x.wrapper + (x.gap + m + behind)) + h + x.context) + x.size == Around(x, m)
  {
    var t := h + x.context + x.size;
    assert Head(x) == x.wrapper + x.gap;
    assert Tail(x) == behind + t;
    Shifted(x.wrapper, x.gap, m, behind, t);
    assert ((x.wrapper + (x.gap + m + behind)) + h + x.context) + x.size == (x.wrapper + (x.gap + m + behind)) + t;
  }

  lemma NormalIsSpelled(raw: string) returns (x: Pieces)
    ensures Proper(x) && Lower(raw) == Around(x, Normalize(raw))
  {
    hide Trim, Lower, IsSpace, Blank, DropContextSize, DropContextMarker, DropWrapper, Context, Normalize, Wrapper,
         Size, Head, Tail;
    NormalizeLow(raw);
    var front, back := TrimCuts(Lower(raw));
    var inner := InnerPieces(Trim(Lower(raw)));
    x := inner.(front := front, back := back);
    Outside(x, inner);
    Shifted(front, Head(inner), Normalize(raw), Tail(inner), back);
  }

  lemma Outside(x: Pieces, inner: Pieces)
    requires inner == x.(front := "", back := "")
    ensures Head(x) == x.front + Head(inner) && Tail(x) == Tail(inner) + x.back
  {}

  /** Two texts stand for one plain id exactly when both are ways to write it: case, blanks, one wrapper in front and
      the context markers behind do not matter, and nothing else is dropped. */
  lemma NormalIffSpelled(raw: string, m: string)
    requires Plain(m) && m != ""
    ensures Normalize(raw) == m <==> Spells(raw, m)
  {
    hide Normalize, Plain, Proper, Lower;
    if Normalize(raw) == m {
      var x := NormalIsSpelled(raw);
    }
    forall x: Pieces | Proper(x) && Lower(raw) == Around(x, m) ensures Normalize(raw) == m {
      SpelledIsNormal(raw, m, x);
    }
  }
}
