/** The tag-name glob matcher, which the repository holds twice: in the demand server and in the logger.

    `Matches` is the declarative meaning of a pattern: '*' stands for any run of characters, '?' for
    one.  `TwoPointer` is the algorithm of both copies as a function: one cursor in the pattern, one in
    the text, and a memory of the last star only.  The source compares a pattern character with the
    text before it looks for a star, so a '*' in the TEXT is consumed literally by a '*' of the
    pattern.  Hence the algorithm is sound on all inputs, and exact for a text (or for a pattern) if and
    only if that text (that pattern) has no '*'.
 */
module Glob {

  datatype Star = NoStar | At(index: nat)

  /** The reference meaning of a pattern. */
  predicate Matches(p: string, t: string)
    decreases |p| + |t|
  {
    if p == "" then t == ""
    else if p[0] == '*' then Matches(p[1..], t) || (t != "" && Matches(p, t[1..]))
    else t != "" && (p[0] == '?' || p[0] == t[0]) && Matches(p[1..], t[1..])
  }

  predicate AllStars(p: string) {
    forall i | 0 <= i < |p| :: p[i] == '*'
  }

  /** The loop of both copies, from any state it can be in. */
  predicate TwoPointer(p: string, t: string, pi: nat, ti: nat, star: Star, mark: nat)
    requires pi <= |p| && mark <= ti <= |t|
    requires star.At? ==> star.index < |p|
    decreases |t| - mark, |p| - pi + |t| - ti
  {
    if ti == |t| then AllStars(p[pi..])
    else if pi < |p| && (p[pi] == '?' || p[pi] == t[ti]) then TwoPointer(p, t, pi + 1, ti + 1, star, mark)
    else if pi < |p| && p[pi] == '*' then TwoPointer(p, t, pi + 1, ti, At(pi), ti)
    else if star.At? then TwoPointer(p, t, star.index + 1, mark + 1, star, mark + 1)
    else false
  }

  predicate Fast(p: string, t: string) {
    TwoPointer(p, t, 0, 0, NoStar, 0)
  }

  /** The demand server's copy: one chained conditional. */
  method ConsumerDemandGlob(pattern: string, text: string) returns (matched: bool)
    ensures matched == Fast(pattern, text)
    ensures matched ==> Matches(pattern, text)
    ensures '*' !in text || '*' !in pattern ==> (matched <==> Matches(pattern, text))
  {
    FastIsSound(pattern, text);
    if '*' !in text || '*' !in pattern { FastIsExact(pattern, text); }
    var p: nat, t: nat := 0, 0;
    var star, mark: nat := NoStar, 0;
    while t < |text|
      invariant p <= |pattern| && mark <= t <= |text| && (star.At? ==> star.index < |pattern|)
      invariant Fast(pattern, text) == TwoPointer(pattern, text, p, t, star, mark)
      decreases |text| - mark, |pattern| - p + |text| - t
    {
      if p < |pattern| && (pattern[p] == '?' || pattern[p] == text[t]) { p, t := p + 1, t + 1; }
      else if p < |pattern| && pattern[p] == '*' { star, p, mark := At(p), p + 1, t; }
      else if star.At? { mark := mark + 1; p, t := star.index + 1, mark; }
      else { return false; }
    }
    ghost var rest: nat := p;
    while p < |pattern| && pattern[p] == '*'
      invariant rest <= p <= |pattern| && forall i | rest <= i < p :: pattern[i] == '*'
    {
      p := p + 1;
    }
    assert p < |pattern| ==> pattern[rest..][p - rest] != '*';
    return p == |pattern|;
  }

  /** The logger's copy: three guarded `continue`s. */
  method LoggerGlobMatch(pattern: string, text: string) returns (matched: bool)
    ensures matched == Fast(pattern, text)
    ensures matched ==> Matches(pattern, text)
    ensures '*' !in text || '*' !in pattern ==> (matched <==> Matches(pattern, text))
  {
    FastIsSound(pattern, text);
    if '*' !in text || '*' !in pattern { FastIsExact(pattern, text); }
    var p: nat, t: nat := 0, 0;
    var star, mark: nat := NoStar, 0;
    while t < |text|
      invariant p <= |pattern| && mark <= t <= |text| && (star.At? ==> star.index < |pattern|)
      invariant Fast(pattern, text) == TwoPointer(pattern, text, p, t, star, mark)
      decreases |text| - mark, |pattern| - p + |text| - t
    {
      if p < |pattern| && (pattern[p] == '?' || pattern[p] == text[t]) {
        p := p + 1;
        t := t + 1;
        continue;
      }
      if p < |pattern| && pattern[p] == '*' {
        star, p := At(p), p + 1;
        mark := t;
        continue;
      }
      if star.At? {
        p := star.index + 1;
        mark := mark + 1;
        t := mark;
        continue;
      }
      return false;
    }
    ghost var rest: nat := p;
    while p < |pattern| && pattern[p] == '*'
      invariant rest <= p <= |pattern| && forall i | rest <= i < p :: pattern[i] == '*'
    {
      p := p + 1;
    }
    assert p < |pattern| ==> pattern[rest..][p - rest] != '*';
    return p == |pattern|;
  }

  // ---------------------------------------------------------------- facts about the reference

  lemma {:induction false} EmptyText(p: string)
    ensures Matches(p, "") <==> AllStars(p)
  {
    if p != "" && p[0] == '*' {
      EmptyText(p[1..]);
      assert AllStars(p) <==> AllStars(p[1..]) by {
        assert forall i | 0 < i < |p| :: p[i] == p[1..][i - 1];
      }
    }
  }

  /** A leading star absorbs any prefix of the text. */
  lemma {:induction false} StarAbsorbs(p: string, t: string, k: nat)
    requires p != "" && p[0] == '*' && k <= |t| && Matches(p[1..], t[k..])
    ensures Matches(p, t)
  {
    if k > 0 {
      assert t[1..][k - 1..] == t[k..];
      StarAbsorbs(p, t[1..], k - 1);
    } else {
      assert t[0..] == t;
    }
  }

  /** And a match of a leading star tells how much it absorbed. */
  lemma {:induction false} StarSplits(p: string, t: string) returns (k: nat)
    requires p != "" && p[0] == '*' && Matches(p, t)
    ensures k <= |t| && Matches(p[1..], t[k..])
  {
    if Matches(p[1..], t) {
      k := 0;
      assert t[0..] == t;
    } else {
      k := StarSplits(p, t[1..]);
      assert t[1..][k..] == t[k + 1..];
      k := k + 1;
    }
  }

  /** A match consumes one character of text for each leading pattern character that is not a star. */
  lemma {:induction false} PlainPrefix(p: string, t: string, n: nat)
    requires n <= |p| && (forall i | 0 <= i < n :: p[i] != '*') && Matches(p, t)
    ensures n <= |t| && Matches(p[n..], t[n..])
  {
    if n == 0 {
      assert p[0..] == p && t[0..] == t;
    } else {
      PlainPrefix(p[1..], t[1..], n - 1);
      assert p[1..][n - 1..] == p[n..] && t[1..][n - 1..] == t[n..];
    }
  }

  /** Any string, its stars and question marks included, matches itself in front of any match. */
  lemma {:induction false} MatchesItself(u: string, p: string, t: string)
    requires Matches(p, t)
    ensures Matches(u + p, u + t)
  {
    if u == "" {
      assert u + p == p && u + t == t;
    } else {
      MatchesItself(u[1..], p, t);
      assert (u + p)[1..] == u[1..] + p && (u + t)[1..] == u[1..] + t;
      if u[0] == '*' {
        StarAbsorbs(u + p, u + t, 1);
      }
    }
  }

  // ---------------------------------------------------------------- soundness, for all inputs

  lemma OneForOne(p: string, t: string, pi: nat, ti: nat)
    requires pi < |p| && ti < |t| && (p[pi] == '?' || p[pi] == t[ti])
    requires Matches(p[pi + 1..], t[ti + 1..])
    ensures Matches(p[pi..], t[ti..])
  {
    assert p[pi..][1..] == p[pi + 1..] && t[ti..][1..] == t[ti + 1..];
    if p[pi] == '*' { StarAbsorbs(p[pi..], t[ti..], 1); }
  }

  lemma StarTakes(p: string, t: string, pi: nat, ti: nat, m: nat)
    requires pi < |p| && ti <= m <= |t| && p[pi] == '*' && Matches(p[pi + 1..], t[m..])
    ensures Matches(p[pi..], t[ti..])
  {
    assert p[pi..][1..] == p[pi + 1..] && t[ti..][m - ti..] == t[m..];
    StarAbsorbs(p[pi..], t[ti..], m - ti);
  }

  lemma {:induction false} TwoPointerIsSound(p: string, t: string, pi: nat, ti: nat, star: Star, mark: nat)
    requires pi <= |p| && mark <= ti <= |t| && (star.At? ==> star.index < |p| && p[star.index] == '*')
    requires Matches(p[pi..], t[ti..]) ==> Matches(p, t)
    requires star.At? ==> forall m | mark <= m <= |t| && Matches(p[star.index + 1..], t[m..]) :: Matches(p, t)
    requires TwoPointer(p, t, pi, ti, star, mark)
    ensures Matches(p, t)
    decreases |t| - mark, |p| - pi + |t| - ti
  {
    if ti == |t| {
      EmptyText(p[pi..]);
    } else if pi < |p| && (p[pi] == '?' || p[pi] == t[ti]) {
      hide Matches;
      if Matches(p[pi + 1..], t[ti + 1..]) { OneForOne(p, t, pi, ti); }
      TwoPointerIsSound(p, t, pi + 1, ti + 1, star, mark);
    } else if pi < |p| && p[pi] == '*' {
      hide Matches;
      forall m | ti <= m <= |t| && Matches(p[pi + 1..], t[m..]) ensures Matches(p, t) { StarTakes(p, t, pi, ti, m); }
      TwoPointerIsSound(p, t, pi + 1, ti, At(pi), ti);
    } else {
      hide Matches;
      TwoPointerIsSound(p, t, star.index + 1, mark + 1, star, mark + 1);
    }
  }

  lemma FastIsSound(p: string, t: string)
    ensures Fast(p, t) ==> Matches(p, t)
  {
    assert p[0..] == p && t[0..] == t;
    if Fast(p, t) { TwoPointerIsSound(p, t, 0, 0, NoStar, 0); }
  }

  // ---------------------------------------------------------------- exactness

  /** Some later restart at the remembered star would match. */
  ghost predicate LaterRestart(p: string, t: string, star: Star, mark: nat)
    requires star.At? ==> star.index < |p|
  {
    star.At? && exists m :: mark < m <= |t| && Matches(p[star.index + 1..], t[m..])
  }

  /** Since the last star, plain characters were consumed one for one. */
  predicate PlainSinceStar(p: string, t: string, pi: nat, ti: nat, star: Star, mark: nat) {
    && pi <= |p| && mark <= ti <= |t|
    && (star.At? ==>
      && star.index < pi && pi - star.index - 1 == ti - mark
      && forall i | star.index < i < pi :: p[i] != '*')
  }

  /** Remembering only the last star loses nothing: when a second star is reached, every restart at the
      first one is also a continuation of the second. */
  lemma LastStarSuffices(p: string, t: string, pi: nat, ti: nat, star: Star, mark: nat)
    requires PlainSinceStar(p, t, pi, ti, star, mark) && LaterRestart(p, t, star, mark)
    ensures ti < |t| && (pi < |p| && p[pi] == '*' ==> exists m :: ti < m <= |t| && Matches(p[pi + 1..], t[m..]))
  {
    var m :| mark < m <= |t| && Matches(p[star.index + 1..], t[m..]);
    var n := ti - mark;
    PlainPrefix(p[star.index + 1..], t[m..], n);
    assert p[star.index + 1..][n..] == p[pi..] && t[m..][n..] == t[m + n..];
    if pi < |p| && p[pi] == '*' {
      var k := StarSplits(p[pi..], t[m + n..]);
      assert p[pi..][1..] == p[pi + 1..] && t[m + n..][k..] == t[m + n + k..];
    }
  }

  lemma {:induction false} TwoPointerIsExact(p: string, t: string, pi: nat, ti: nat, star: Star, mark: nat)
    requires '*' !in t && PlainSinceStar(p, t, pi, ti, star, mark)
    ensures TwoPointer(p, t, pi, ti, star, mark) <==> Matches(p[pi..], t[ti..]) || LaterRestart(p, t, star, mark)
    decreases |t| - mark, |p| - pi + |t| - ti
  {
    hide Matches, LaterRestart;
    RestartGoesOn(p, t, pi, ti, star, mark);
    if ti == |t| {
      EmptyText(p[pi..]);
      assert t[ti..] == "";
    } else if pi < |p| && (p[pi] == '?' || p[pi] == t[ti]) {
      OneForOneExactly(p, t, pi, ti);
      TwoPointerIsExact(p, t, pi + 1, ti + 1, star, mark);
    } else if pi < |p| && p[pi] == '*' {
      StarStep(p, t, pi, ti);
      TwoPointerIsExact(p, t, pi + 1, ti, At(pi), ti);
    } else {
      NoMatchHere(p, t, pi, ti);
      if star.At? {
        TwoPointerIsExact(p, t, star.index + 1, mark + 1, star, mark + 1);
        RestartSplits(p, t, star, mark);
      } else {
        NoRestart(p, t, mark);
      }
    }
  }

  lemma RestartGoesOn(p: string, t: string, pi: nat, ti: nat, star: Star, mark: nat)
    requires PlainSinceStar(p, t, pi, ti, star, mark)
    ensures LaterRestart(p, t, star, mark) ==> ti < |t| && (pi < |p| && p[pi] == '*' ==> LaterRestart(p, t, At(pi), ti))
  {
    if LaterRestart(p, t, star, mark) { LastStarSuffices(p, t, pi, ti, star, mark); }
  }

  lemma NoRestart(p: string, t: string, mark: nat)
    ensures !LaterRestart(p, t, NoStar, mark)
  {
  }

  /** A character of the text that is no star is consumed one for one. */
  lemma OneForOneExactly(p: string, t: string, pi: nat, ti: nat)
    requires pi < |p| && ti < |t| && t[ti] != '*' && (p[pi] == '?' || p[pi] == t[ti])
    ensures Matches(p[pi..], t[ti..]) <==> Matches(p[pi + 1..], t[ti + 1..])
  {
    assert p[pi..][1..] == p[pi + 1..] && t[ti..][1..] == t[ti + 1..];
  }

  lemma NoMatchHere(p: string, t: string, pi: nat, ti: nat)
    requires pi <= |p| && ti < |t| && (pi == |p| || (p[pi] != '?' && p[pi] != t[ti] && p[pi] != '*'))
    ensures !Matches(p[pi..], t[ti..])
  {
  }

  lemma RestartSplits(p: string, t: string, star: Star, mark: nat)
    requires star.At? && star.index < |p| && mark < |t|
    ensures LaterRestart(p, t, star, mark) <==>
      Matches(p[star.index + 1..], t[mark + 1..]) || LaterRestart(p, t, star, mark + 1)
  {
    hide Matches;
  }

  lemma StarStep(p: string, t: string, pi: nat, ti: nat)
    requires pi < |p| && ti <= |t| && p[pi] == '*'
    ensures Matches(p[pi..], t[ti..]) <==> Matches(p[pi + 1..], t[ti..]) || LaterRestart(p, t, At(pi), ti)
  {
    assert p[pi..][1..] == p[pi + 1..];
    if Matches(p[pi..], t[ti..]) {
      var k := StarSplits(p[pi..], t[ti..]);
      assert t[ti..][k..] == t[ti + k..];
    }
    if LaterRestart(p, t, At(pi), ti) {
      var m :| ti < m <= |t| && Matches(p[pi + 1..], t[m..]);
      assert t[ti..][m - ti..] == t[m..];
      StarAbsorbs(p[pi..], t[ti..], m - ti);
    }
  }

  lemma {:induction false} NoStarInPattern(p: string, t: string, pi: nat, ti: nat)
    requires '*' !in p && pi <= |p| && ti <= |t|
    ensures TwoPointer(p, t, pi, ti, NoStar, 0) <==> Matches(p[pi..], t[ti..])
    decreases |t| - ti
  {
    if ti == |t| {
      EmptyText(p[pi..]);
    } else if pi < |p| && (p[pi] == '?' || p[pi] == t[ti]) {
      assert p[pi..][1..] == p[pi + 1..] && t[ti..][1..] == t[ti + 1..];
      NoStarInPattern(p, t, pi + 1, ti + 1);
    }
  }

  lemma FastIsExact(p: string, t: string)
    requires '*' !in t || '*' !in p
    ensures Fast(p, t) <==> Matches(p, t)
  {
    assert p[0..] == p && t[0..] == t;
    if '*' !in t {
      TwoPointerIsExact(p, t, 0, 0, NoStar, 0);
    } else {
      NoStarInPattern(p, t, 0, 0);
    }
  }

  // ---------------------------------------------------------------- where exactness ends

  /** A common prefix, stars included, is consumed character by character. */
  lemma {:induction false} CommonPrefix(p: string, t: string, n: nat, pi: nat)
    requires pi <= n <= |p| && n <= |t| && p[..n] == t[..n]
    ensures TwoPointer(p, t, pi, pi, NoStar, 0) == TwoPointer(p, t, n, n, NoStar, 0)
    decreases n - pi
  {
    if pi < n {
      assert p[pi] == p[..n][pi] == t[..n][pi] == t[pi];
      CommonPrefix(p, t, n, pi + 1);
    }
  }

  /** The failing pattern of a text that holds a star: the text up to its star, and then, when nothing
      follows the star, a '?'. */
  function FailingPattern(t: string, i: nat): string
    requires i < |t|
  {
    t[..i + 1] + (if i + 1 == |t| then "?" else "")
  }

  /** The failing text of a pattern u + "*" + v with a plain v: one character more between star and v. */
  function FailingText(p: string, i: nat): string
    requires i < |p|
  {
    p[..i + 1] + "x" + p[i + 1..]
  }

  lemma FailsOnText(t: string, i: nat)
    requires i < |t| && t[i] == '*'
    ensures Matches(FailingPattern(t, i), t) && !Fast(FailingPattern(t, i), t)
  {
    var p := FailingPattern(t, i);
    CommonPrefix(p, t, i + 1, 0);
    var q := p[i..];
    assert Matches(q, t[i..]) by {
      if i + 1 == |t| {
        assert q[1..] == "?" && t[i..] == "*";
        StarAbsorbs(q, t[i..], 0);
      } else {
        assert q[1..] == "";
        StarAbsorbs(q, t[i..], |t| - i);
      }
    }
    MatchesItself(t[..i], q, t[i..]);
    assert t[..i] + q == p && t[..i] + t[i..] == t;
    if i + 1 == |t| { assert p[i + 1..][0] == '?'; }
  }

  lemma {:induction false} PlainRestTooShort(p: string, t: string, pi: nat, ti: nat)
    requires pi <= |p| && ti <= |t| && |p| - pi < |t| - ti && forall i | pi <= i < |p| :: p[i] != '*'
    ensures !TwoPointer(p, t, pi, ti, NoStar, 0)
    decreases |p| - pi
  {
    if pi < |p| && (p[pi] == '?' || p[pi] == t[ti]) { PlainRestTooShort(p, t, pi + 1, ti + 1); }
  }

  lemma FailsOnPattern(p: string, i: nat)
    requires i < |p| && p[i] == '*' && forall j | i < j < |p| :: p[j] != '*'
    ensures Matches(p, FailingText(p, i)) && !Fast(p, FailingText(p, i))
  {
    FailingTextParts(p, i);
    StarSkipsOne(p[i + 1..]);
    MatchesItself(p[..i], "*" + p[i + 1..], "*x" + p[i + 1..]);
    CommonPrefix(p, FailingText(p, i), i + 1, 0);
    PlainRestTooShort(p, FailingText(p, i), i + 1, i + 1);
  }

  lemma FailingTextParts(p: string, i: nat)
    requires i < |p| && p[i] == '*'
    ensures |FailingText(p, i)| == |p| + 1 && FailingText(p, i)[..i + 1] == p[..i + 1]
    ensures p == p[..i] + ("*" + p[i + 1..])
    ensures FailingText(p, i) == p[..i] + ("*x" + p[i + 1..])
  {
  }

  lemma StarSkipsOne(v: string)
    ensures Matches("*" + v, "*x" + v)
  {
    MatchesItself(v, "", "");
    assert v + "" == v;
    assert ("*" + v)[1..] == v && ("*x" + v)[2..] == v;
    StarAbsorbs("*" + v, "*x" + v, 2);
  }

  lemma LastStar(p: string) returns (i: nat)
    requires '*' in p
    ensures i < |p| && p[i] == '*' && forall j | i < j < |p| :: p[j] != '*'
  {
    i := |p| - 1;
    while p[i] != '*'
      invariant i < |p| && forall j | i < j < |p| :: p[j] != '*'
      decreases i
    {
      i := i - 1;
    }
  }

  /** A text is matched correctly by every pattern exactly when it holds no star. */
  lemma ExactForText(t: string)
    ensures (forall p :: Fast(p, t) <==> Matches(p, t)) <==> '*' !in t
  {
    if '*' in t {
      var i :| 0 <= i < |t| && t[i] == '*';
      FailsOnText(t, i);
    } else {
      forall p ensures Fast(p, t) <==> Matches(p, t) { FastIsExact(p, t); }
    }
  }

  /** A pattern is matched correctly against every text exactly when it holds no star. */
  lemma ExactForPattern(p: string)
    ensures (forall t :: Fast(p, t) <==> Matches(p, t)) <==> '*' !in p
  {
    if '*' in p {
      var i := LastStar(p);
      FailsOnPattern(p, i);
    } else {
      forall t ensures Fast(p, t) <==> Matches(p, t) { FastIsExact(p, t); }
    }
  }
}
