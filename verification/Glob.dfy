/** The wildcard matcher of the model-routing rules. */
module Glob {

  // ---------------------------------------------------------------- meaning

  /** `*` stands for any run of characters, `?` for one, anything else for itself. */
  predicate Matches(p: string, t: string)
    decreases |p| + |t|
  {
    if p == [] then t == []
    else if p[0] == '*' then Matches(p[1..], t) || (t != [] && Matches(p, t[1..]))
    else t != [] && (p[0] == '?' || p[0] == t[0]) && Matches(p[1..], t[1..])
  }

  // ---------------------------------------------------------------- the scan

  /** The last `*` passed: where it stands in the pattern, and where its text ends so far. */
  datatype Star = NoStar | Star(at: nat, text: nat)

  ghost predicate ScanState(p: string, t: string, pi: nat, ti: nat, star: Star) {
    && pi <= |p| && ti <= |t|
    && (star.Star? ==> star.at < pi && star.text <= ti && p[star.at] == '*')
  }

  ghost function StarText(star: Star): nat {
    if star.Star? then star.text else 0
  }

  /** The answer of the scan from one of its states: literal step, then new `*`, then back to the last one. */
  ghost predicate Scan(p: string, t: string, pi: nat, ti: nat, star: Star)
    requires ScanState(p, t, pi, ti, star)
    decreases |t| - StarText(star), |p| - pi
  {
    if ti == |t| then forall k :: pi <= k < |p| ==> p[k] == '*'
    else if pi < |p| && (p[pi] == '?' || p[pi] == t[ti]) then Scan(p, t, pi + 1, ti + 1, star)
    else if pi < |p| && p[pi] == '*' then Scan(p, t, pi + 1, ti, Star(pi, ti))
    else if star.Star? then Scan(p, t, star.at + 1, star.text + 1, Star(star.at, star.text + 1))
    else false
  }

  method GlobMatches(pattern: string, text: string) returns (r: bool)
    ensures r == Scan(pattern, text, 0, 0, NoStar)
    ensures r ==> Matches(pattern, text)
    ensures '*' !in text ==> r == Matches(pattern, text)
  {
    var pi: nat, ti: nat := 0, 0;
    var star := NoStar;
    while ti < |text|
      invariant ScanState(pattern, text, pi, ti, star)
      invariant Scan(pattern, text, 0, 0, NoStar) == Scan(pattern, text, pi, ti, star)
      decreases |text| - StarText(star), |pattern| - pi
    {
      if pi < |pattern| && (pattern[pi] == '?' || pattern[pi] == text[ti]) {
        pi, ti := pi + 1, ti + 1;
      } else if pi < |pattern| && pattern[pi] == '*' {
        star := Star(pi, ti);
        pi := pi + 1;
      } else if star.Star? {
        pi := star.at + 1;
        ti := star.text + 1;
        star := Star(star.at, ti);
      } else {
        ScanMeaning(pattern, text);
        return false;
      }
    }
    ghost var rest := pi;
    while pi < |pattern| && pattern[pi] == '*'
      invariant rest <= pi <= |pattern|
      invariant forall k :: rest <= k < pi ==> pattern[k] == '*'
    {
      pi := pi + 1;
    }
    r := pi == |pattern|;
    ScanMeaning(pattern, text);
  }

  lemma ScanMeaning(p: string, t: string)
    ensures Scan(p, t, 0, 0, NoStar) ==> Matches(p, t)
    ensures '*' !in t ==> Scan(p, t, 0, 0, NoStar) == Matches(p, t)
  {
    assert p[0..] == p && t[0..] == t;
    ScanSound(p, t, 0, 0, NoStar);
    if '*' !in t {
      ScanComplete(p, t, 0, 0, NoStar);
    }
  }

  // ---------------------------------------------------------------- facts about the meaning

  lemma {:induction false} AllStarsMatchEmpty(p: string)
    ensures Matches(p, []) <==> forall k :: 0 <= k < |p| ==> p[k] == '*'
  {
    if p != [] {
      AllStarsMatchEmpty(p[1..]);
      assert p[0] == '*' ==> forall k :: 1 <= k < |p| ==> p[k] == p[1..][k - 1];
    }
  }

  /** A leading `*` can always swallow more. */
  lemma {:induction false} StarSwallows(p: string, t: string, k: nat)
    requires p != [] && p[0] == '*' && k <= |t| && Matches(p, t[k..])
    ensures Matches(p, t)
    decreases k
  {
    if k == 0 {
      assert t[0..] == t;
    } else {
      assert t[1..][k - 1..] == t[k..];
      StarSwallows(p, t[1..], k - 1);
    }
  }

  /** A leading `*` swallows some amount: what follows it matches some suffix. */
  lemma {:induction false} StarWitness(p: string, t: string) returns (k: nat)
    requires p != [] && p[0] == '*' && Matches(p, t)
    ensures k <= |t| && Matches(p[1..], t[k..])
    decreases |t|
  {
    if Matches(p[1..], t) {
      k := 0;
      assert t[0..] == t;
    } else {
      var j := StarWitness(p, t[1..]);
      k := j + 1;
      assert t[1..][j..] == t[k..];
    }
  }

  /** One character against one pattern character other than `*`. */
  predicate Fits(p: char, c: char) {
    p == '?' || p == c
  }

  /** `lit` holds no `*`, so it lines up with the text character by character. */
  lemma {:induction false} LiteralPrefix(p: string, t: string, n: nat)
    requires n <= |p|
    requires forall i :: 0 <= i < n ==> p[i] != '*'
    ensures Matches(p, t) <==>
      n <= |t| && (forall i :: 0 <= i < n ==> Fits(p[i], t[i])) && Matches(p[n..], t[n..])
  {
    if n == 0 {
      assert p[0..] == p && t[0..] == t;
    } else if t != [] {
      LiteralPrefix(p[1..], t[1..], n - 1);
      assert p[1..][n - 1..] == p[n..];
      if n <= |t| {
        assert t[1..][n - 1..] == t[n..];
        assert (forall i :: 0 <= i < n ==> Fits(p[i], t[i])) <==>
          Fits(p[0], t[0]) && forall i :: 0 <= i < n - 1 ==> Fits(p[1..][i], t[1..][i]) by {
          assert forall i :: 0 < i < n ==> p[i] == p[1..][i - 1] && t[i] == t[1..][i - 1];
        }
      }
    }
  }

  // ---------------------------------------------------------------- soundness, for every text

  /** Every state of the scan only promises matches the whole pattern has. */
  lemma {:induction false} ScanSound(p: string, t: string, pi: nat, ti: nat, star: Star)
    requires ScanState(p, t, pi, ti, star)
    requires Matches(p[pi..], t[ti..]) ==> Matches(p, t)
    requires star.Star? && Matches(p[star.at..], t[star.text..]) ==> Matches(p, t)
    ensures Scan(p, t, pi, ti, star) ==> Matches(p, t)
    decreases |t| - StarText(star), |p| - pi
  {
    if ti == |t| {
      assert t[ti..] == [];
      AllStarsMatchEmpty(p[pi..]);
      assert (forall k :: pi <= k < |p| ==> p[k] == '*') ==> forall k :: 0 <= k < |p[pi..]| ==> p[pi..][k] == '*';
    } else if pi < |p| && (p[pi] == '?' || p[pi] == t[ti]) {
      assert p[pi..][1..] == p[pi + 1..] && t[ti..][1..] == t[ti + 1..];
      if Matches(p[pi + 1..], t[ti + 1..]) && p[pi] == '*' {
        assert Matches(p[pi..], t[ti + 1..]);
      }
      ScanSound(p, t, pi + 1, ti + 1, star);
    } else if pi < |p| && p[pi] == '*' {
      assert p[pi..][1..] == p[pi + 1..];
      ScanSound(p, t, pi + 1, ti, Star(pi, ti));
    } else if star.Star? {
      var from := p[star.at..];
      assert from[1..] == p[star.at + 1..] && t[star.text..][1..] == t[star.text + 1..];
      if Matches(from[1..], t[star.text + 1..]) {
        assert Matches(from, t[star.text + 1..]);
      }
      ScanSound(p, t, star.at + 1, star.text + 1, Star(star.at, star.text + 1));
    }
  }

  // ---------------------------------------------------------------- completeness, for `*`-free texts

  /** What the scan knows: the part since the last `*` is literal and has matched so far. */
  ghost predicate Aligned(p: string, t: string, pi: nat, ti: nat, star: Star)
    requires ScanState(p, t, pi, ti, star)
  {
    var from, start := if star.Star? then star.at + 1 else 0, StarText(star);
    && pi - from == ti - start
    && (forall i :: from <= i < pi ==> p[i] != '*')
    && (forall i :: from <= i < pi ==> Fits(p[i], t[i - from + start]))
    && (star.Star? ==> Matches(p, t) == Matches(p[star.at..], t[star.text..]))
  }

  /** From an aligned state, the part since the last `*` matches exactly when what is left of it does. */
  lemma AlignedRest(p: string, t: string, pi: nat, ti: nat, star: Star)
    requires ScanState(p, t, pi, ti, star) && Aligned(p, t, pi, ti, star)
    ensures var from, start := if star.Star? then star.at + 1 else 0, StarText(star);
      Matches(p[from..], t[start..]) == Matches(p[pi..], t[ti..])
  {
    var from, start := if star.Star? then star.at + 1 else 0, StarText(star);
    var q, u, n := p[from..], t[start..], pi - from;
    forall i | 0 <= i < n ensures q[i] != '*' {
      assert q[i] == p[from + i];
    }
    forall i | 0 <= i < n ensures Fits(q[i], u[i]) {
      assert u[i] == t[(from + i) - from + start];
    }
    LiteralPrefix(q, u, n);
    assert q[n..] == p[pi..];
    assert u[n..] == t[ti..];
  }

  /** Meeting a second `*`: only the later one has to be kept. */
  lemma LaterStarSuffices(p: string, t: string, pi: nat, ti: nat, star: Star)
    requires ScanState(p, t, pi, ti, star) && Aligned(p, t, pi, ti, star)
    requires pi < |p| && p[pi] == '*'
    ensures Matches(p, t) == Matches(p[pi..], t[ti..])
  {
    AlignedRest(p, t, pi, ti, star);
    if star.NoStar? {
      assert p[0..] == p && t[0..] == t;
    } else {
      var from, u := p[star.at..], t[star.text..];
      assert from[1..] == p[star.at + 1..];
      if Matches(from, u) {
        var k := StarWitness(from, u);
        var n := pi - star.at - 1;
        LiteralPrefix(from[1..], u[k..], n) by {
          assert forall i :: 0 <= i < n ==> from[1..][i] == p[star.at + 1 + i];
        }
        assert from[1..][n..] == p[pi..];
        assert u[k..][n..] == t[ti..][k..];
        StarSwallows(p[pi..], t[ti..], k);
      }
    }
  }

  /** A mismatch at the current place rules out this start of the last `*`'s suffix. */
  lemma MismatchMovesOn(p: string, t: string, pi: nat, ti: nat, star: Star)
    requires ScanState(p, t, pi, ti, star) && Aligned(p, t, pi, ti, star)
    requires ti < |t|
    requires pi == |p| || (p[pi] != '*' && !Fits(p[pi], t[ti]))
    ensures star.NoStar? ==> !Matches(p, t)
    ensures star.Star? ==> Matches(p, t) == Matches(p[star.at..], t[star.text + 1..])
  {
    AlignedRest(p, t, pi, ti, star);
    assert !Matches(p[pi..], t[ti..]);
    if star.NoStar? {
      assert p[0..] == p && t[0..] == t;
    } else {
      assert p[star.at..][1..] == p[star.at + 1..];
      assert t[star.text..][1..] == t[star.text + 1..];
    }
  }

  lemma {:induction false} ScanComplete(p: string, t: string, pi: nat, ti: nat, star: Star)
    requires ScanState(p, t, pi, ti, star) && Aligned(p, t, pi, ti, star)
    requires '*' !in t
    ensures Scan(p, t, pi, ti, star) == Matches(p, t)
    decreases |t| - StarText(star), |p| - pi
  {
    hide Matches;
    if ti == |t| {
      TextExhausted(p, t, pi, ti, star);
    } else if pi < |p| && (p[pi] == '?' || p[pi] == t[ti]) {
      ScanComplete(p, t, pi + 1, ti + 1, star);
    } else if pi < |p| && p[pi] == '*' {
      LaterStarSuffices(p, t, pi, ti, star);
      ScanComplete(p, t, pi + 1, ti, Star(pi, ti));
    } else {
      MismatchMovesOn(p, t, pi, ti, star);
      if star.Star? {
        ScanComplete(p, t, star.at + 1, star.text + 1, Star(star.at, star.text + 1));
      }
    }
  }

  /** With the text used up, an earlier `*` has nothing left to offer. */
  lemma TextExhausted(p: string, t: string, pi: nat, ti: nat, star: Star)
    requires ScanState(p, t, pi, ti, star) && Aligned(p, t, pi, ti, star)
    requires ti == |t|
    ensures Matches(p, t) <==> forall k :: pi <= k < |p| ==> p[k] == '*'
  {
    AlignedRest(p, t, pi, ti, star);
    assert t[ti..] == [];
    AllStarsMatchEmpty(p[pi..]);
    assert (forall k :: pi <= k < |p| ==> p[k] == '*') <==> forall k :: 0 <= k < |p[pi..]| ==> p[pi..][k] == '*' by {
      assert forall k :: pi <= k < |p| ==> p[k] == p[pi..][k - pi];
    }
    if star.NoStar? {
      assert p[0..] == p && t[0..] == t;
    } else {
      var from, u, n := p[star.at..], t[star.text..], pi - star.at - 1;
      assert from[1..] == p[star.at + 1..];
      if Matches(from, u) {
        var k := StarWitness(from, u);
        LiteralPrefix(from[1..], u[k..], n) by {
          assert forall i :: 0 <= i < n ==> from[1..][i] == p[star.at + 1 + i];
        }
        assert k == 0 && u[0..] == u;
      }
    }
  }

  // ---------------------------------------------------------------- exactly when the scan is right

  lemma {:induction false} SelfMatch(t: string)
    ensures Matches(t, t)
  {
    if t != [] {
      SelfMatch(t[1..]);
      if t[0] == '*' {
        assert Matches(t, t[1..]);
      }
    }
  }

  lemma {:induction false} MatchAfterSelf(u: string, p: string, t: string)
    requires Matches(p, t)
    ensures Matches(u + p, u + t)
  {
    if u == [] {
      assert u + p == p && u + t == t;
    } else {
      MatchAfterSelf(u[1..], p, t);
      assert (u + p)[1..] == u[1..] + p && (u + t)[1..] == u[1..] + t;
      if u[0] == '*' {
        assert Matches(u + p, (u + t)[1..]);
      }
    }
  }

  /** A pattern that repeats the text is consumed literally, its own `*`s included. */
  lemma {:induction false} ScanFollowsText(p: string, t: string, n: nat, k: nat)
    requires n <= k <= |p| && k <= |t| && p[..k] == t[..k]
    ensures Scan(p, t, n, n, NoStar) == Scan(p, t, k, k, NoStar)
    decreases k - n
  {
    if n < k {
      assert p[n] == p[..k][n] && t[n] == t[..k][n];
      ScanFollowsText(p, t, n + 1, k);
    }
  }

  /** Without a `*` to come, a pattern longer than its text is refused. */
  lemma {:induction false} ScanTooLong(p: string, t: string, pi: nat, ti: nat)
    requires pi <= |p| && ti <= |t| && |p| - pi > |t| - ti
    requires forall i :: pi <= i < |p| ==> p[i] != '*'
    ensures !Scan(p, t, pi, ti, NoStar)
    decreases |t| - ti
  {
    assert p[pi] != '*';
    if ti < |t| && (p[pi] == '?' || p[pi] == t[ti]) {
      ScanTooLong(p, t, pi + 1, ti + 1);
    }
  }

  function LastStar(t: string): (k: nat)
    requires '*' in t
    ensures k < |t| && t[k] == '*' && '*' !in t[k + 1..]
  {
    var n := |t| - 1;
    if t[n] == '*' then n
    else
      assert t == t[..n] + [t[n]];
      var k := LastStar(t[..n]);
      assert t[k + 1..] == t[..n][k + 1..] + [t[n]];
      k
  }

  /** For a text holding `*`: insert a `?` after its last one, and the scan misses a match. */
  lemma MissedMatch(t: string) returns (p: string)
    requires '*' in t
    ensures Matches(p, t) && !Scan(p, t, 0, 0, NoStar)
  {
    hide LastStar;
    var k := LastStar(t);
    var u, v := t[..k], t[k + 1..];
    p := u + ("*?" + v);
    assert t == u + ("*" + v);
    SelfMatch(v);
    assert ("*" + v)[1..] == v && ("?" + v)[1..] == v && ("*?" + v)[1..] == "?" + v;
    assert ("?*" + v)[1..] == "*" + v;
    assert Matches("?" + v, "*" + v);
    assert Matches("*?" + v, "*" + v);
    MatchAfterSelf(u, "*?" + v, "*" + v);
    assert p[..k + 1] == t[..k + 1];
    ScanFollowsText(p, t, 0, k + 1);
    forall i | k + 1 <= i < |p| ensures p[i] != '*' {
      if i > k + 1 {
        assert p[i] == v[i - k - 2];
      }
    }
    ScanTooLong(p, t, k + 1, k + 1);
  }

  /** The scan agrees with the meaning of every pattern exactly on the texts that hold no `*`. */
  lemma ScanAgreesExactly(t: string)
    ensures (forall p :: Scan(p, t, 0, 0, NoStar) == Matches(p, t)) <==> '*' !in t
  {
    if '*' in t {
      var p := MissedMatch(t);
      assert Scan(p, t, 0, 0, NoStar) != Matches(p, t);
    } else {
      forall p ensures Scan(p, t, 0, 0, NoStar) == Matches(p, t) {
        ScanMeaning(p, t);
      }
    }
  }

  /** A pattern without wildcards matches itself and nothing else, on any text. */
  lemma {:induction false} LiteralMatches(p: string, t: string)
    requires forall i :: 0 <= i < |p| ==> p[i] != '*' && p[i] != '?'
    ensures Matches(p, t) <==> p == t
    ensures Scan(p, t, 0, 0, NoStar) <==> p == t
  {
    LiteralPrefix(p, t, |p|);
    assert p[|p|..] == [];
    if Matches(p, t) {
      assert t[|p|..] == [];
    }
    ScanMeaning(p, t);
    if p == t {
      SelfMatch(t);
      ScanFollowsText(p, t, 0, |t|);
    }
  }

  /** A pattern without `*` is met by a text of its length, character by character, on any text. */
  lemma {:induction false} ScanFits(p: string, t: string, k: nat)
    requires k <= |p| == |t|
    requires forall i :: 0 <= i < |p| ==> Fits(p[i], t[i])
    ensures Scan(p, t, k, k, NoStar)
    decreases |p| - k
  {
    if k < |p| {
      assert Fits(p[k], t[k]);
      ScanFits(p, t, k + 1);
    }
  }

  lemma StarlessScan(p: string, t: string)
    requires '*' !in p
    ensures Scan(p, t, 0, 0, NoStar) <==> |p| == |t| && forall i :: 0 <= i < |p| ==> Fits(p[i], t[i])
  {
    hide Scan;
    if |p| == |t| && forall i :: 0 <= i < |p| ==> Fits(p[i], t[i]) {
      ScanFits(p, t, 0);
    }
    if Scan(p, t, 0, 0, NoStar) {
      ScanMeaning(p, t);
      LiteralPrefix(p, t, |p|);
      assert p[|p|..] == [];
    }
  }
}
