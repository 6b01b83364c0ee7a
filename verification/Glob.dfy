/** The drive's file name matcher: a loop that remembers only the last `*` it passed,
    measured against the recursive meaning of `?` and `*`. */
module Glob {

  const NO_STAR: int := -1

  function UpperChar(c: char): char {
    if 'a' <= c <= 'z' then (c as int - 32) as char else c
  }

  /** Folds `a`..`z` to upper case and drops whatever is not printable ASCII. */
  function Normalized(s: string): string {
    if s == [] then []
    else
      var u := UpperChar(s[0]);
      (if ' ' <= u <= '~' then [u] else []) + Normalized(s[1..])
  }

  method NormalizeUpperAscii(s: string) returns (out: string)
    ensures out == Normalized(s)
  {
    out := [];
    assert s[0..] == s;
    for i := 0 to |s|
      invariant out + Normalized(s[i..]) == Normalized(s)
    {
      hide Normalized;
      var u := UpperChar(s[i]);
      assert s[i..][1..] == s[i + 1..];
      NormalizedUnfolds(s[i..]);
      if ' ' <= u <= '~' {
        Associates(out, [u], Normalized(s[i + 1..]));
        out := out + [u];
      }
    }
    assert s[|s|..] == [];
    assert Normalized([]) == [];
    assert out + [] == out;
  }

  lemma NormalizedUnfolds(s: string)
    requires s != []
    ensures var u := UpperChar(s[0]);
            Normalized(s) == if ' ' <= u <= '~' then [u] + Normalized(s[1..]) else Normalized(s[1..])
  {
    assert [] + Normalized(s[1..]) == Normalized(s[1..]);
  }

  lemma Associates(a: string, b: string, c: string)
    ensures a + (b + c) == a + b + c
  {
  }

  /** The meaning of a pattern: `?` stands for one character, `*` for any number of them. */
  predicate Matches(p: string, t: string)
    decreases |p| + |t|
  {
    if p == [] then t == []
    else if p[0] == '*' then Matches(p[1..], t) || (t != [] && Matches(p, t[1..]))
    else t != [] && (p[0] == '?' || p[0] == t[0]) && Matches(p[1..], t[1..])
  }

  /** What the drive promises of a name: an empty pattern accepts everything. */
  predicate Accepts(pattern: string, name: string) {
    pattern == [] || Matches(pattern, Normalized(name))
  }

  predicate AllStars(p: string) {
    forall i :: 0 <= i < |p| ==> p[i] == '*'
  }

  predicate StarFree(s: string) {
    '*' !in s
  }

  predicate CursorOk(pat: string, txt: string, p: int, t: int, star: int, mark: int) {
    0 <= p <= |pat| && 0 <= mark <= t <= |txt| && NO_STAR <= star < p
  }

  /** The verdict of the scan from a given position of its cursors: the same comparison order as the
      loop, equality before star. */
  predicate Scan(pat: string, txt: string, p: int, t: int, star: int, mark: int)
    requires CursorOk(pat, txt, p, t, star, mark)
    decreases |txt| - mark, |txt| - t, |pat| - p
  {
    if t == |txt| then AllStars(pat[p..])
    else if p < |pat| && (pat[p] == '?' || pat[p] == txt[t]) then Scan(pat, txt, p + 1, t + 1, star, mark)
    else if p < |pat| && pat[p] == '*' then Scan(pat, txt, p + 1, t, p, t)
    else if star != NO_STAR then Scan(pat, txt, star + 1, mark + 1, star, mark + 1)
    else false
  }

  predicate Verdict(pattern: string, name: string) {
    pattern == [] || Scan(pattern, Normalized(name), 0, 0, NO_STAR, 0)
  }

  /** The matcher as the drive runs it. It terminates for every input, and on a name without `*` it
      decides exactly the recursive meaning. */
  method WildcardMatch(pattern: string, text: string) returns (r: bool)
    ensures r == Verdict(pattern, text)
    ensures r ==> Accepts(pattern, text)
    ensures StarFree(text) || StarFree(pattern) ==> r == Accepts(pattern, text)
  {
    VerdictSound(pattern, text);
    if StarFree(text) || StarFree(pattern) {
      VerdictExactWhenEitherSideIsStarFree(pattern, text);
    }
    if pattern == [] {
      return true;
    }
    var up := NormalizeUpperAscii(text);
    var p, t, star, mark := 0, 0, NO_STAR, 0;
    while t < |up|
      invariant CursorOk(pattern, up, p, t, star, mark)
      invariant Scan(pattern, up, p, t, star, mark) == Scan(pattern, up, 0, 0, NO_STAR, 0)
      decreases |up| - mark, |up| - t, |pattern| - p
    {
      if p < |pattern| && (pattern[p] == '?' || pattern[p] == up[t]) {
        p, t := p + 1, t + 1;
      } else if p < |pattern| && pattern[p] == '*' {
        star, mark := p, t;
        p := p + 1;
      } else if star != NO_STAR {
        mark := mark + 1;
        p, t := star + 1, mark;
      } else {
        return false;
      }
    }
    while p < |pattern| && pattern[p] == '*'
      invariant 0 <= p <= |pattern|
      invariant AllStars(pattern[p..]) == Scan(pattern, up, 0, 0, NO_STAR, 0)
    {
      assert AllStars(pattern[p..]) == AllStars(pattern[p + 1..]) by {
        assert pattern[p..] == [pattern[p]] + pattern[p + 1..];
      }
      p := p + 1;
    }
    assert p < |pattern| ==> pattern[p..][0] != '*';
    return p == |pattern|;
  }

  // ---- the recursive meaning ------------------------------------------------------------------

  lemma {:induction false} AllStarsMatchNothing(p: string)
    ensures Matches(p, []) == AllStars(p)
  {
    if p != [] {
      AllStarsMatchNothing(p[1..]);
      assert p == [p[0]] + p[1..];
      assert AllStars(p) == (p[0] == '*' && AllStars(p[1..])) by {
        if p[0] == '*' && AllStars(p[1..]) {
          forall i | 0 <= i < |p| ensures p[i] == '*' {
            if i > 0 { assert p[i] == p[1..][i - 1]; }
          }
        }
        if AllStars(p) {
          forall i | 0 <= i < |p[1..]| ensures p[1..][i] == '*' {
            assert p[1..][i] == p[i + 1];
          }
        }
      }
    }
  }

  /** A star absorbs any stretch of text before the place where the rest matches. */
  lemma {:induction false} StarAbsorbs(pat: string, txt: string, p: nat, t: nat, k: nat)
    requires p < |pat| && pat[p] == '*'
    requires t <= k <= |txt|
    requires Matches(pat[p + 1..], txt[k..])
    ensures Matches(pat[p..], txt[t..])
    decreases k - t
  {
    assert pat[p..][1..] == pat[p + 1..];
    if t < k {
      StarAbsorbs(pat, txt, p, t + 1, k);
      assert txt[t..][1..] == txt[t + 1..];
    }
  }

  /** Conversely, a match of a leading star splits the text somewhere. */
  lemma {:induction false} StarSplits(pat: string, txt: string, p: nat, t: nat) returns (k: nat)
    requires p < |pat| && pat[p] == '*' && t <= |txt|
    requires Matches(pat[p..], txt[t..])
    ensures t <= k <= |txt| && Matches(pat[p + 1..], txt[k..])
    decreases |txt| - t
  {
    assert pat[p..][1..] == pat[p + 1..];
    if Matches(pat[p + 1..], txt[t..]) {
      k := t;
    } else {
      assert txt[t..][1..] == txt[t + 1..];
      k := StarSplits(pat, txt, p, t + 1);
    }
  }

  /** A star-free stretch of pattern consumes exactly its own length of text. */
  lemma {:induction false} StarFreeStretchConsumes(pat: string, txt: string, from: int, end: int, t: int)
    requires 0 <= from <= end <= |pat| && 0 <= t <= |txt|
    requires forall i :: from <= i < end ==> pat[i] != '*'
    requires Matches(pat[from..], txt[t..])
    ensures t + (end - from) <= |txt| && Matches(pat[end..], txt[t + (end - from)..])
    decreases end - from
  {
    if from < end {
      assert pat[from..][1..] == pat[from + 1..];
      assert txt[t..][1..] == txt[t + 1..];
      StarFreeStretchConsumes(pat, txt, from + 1, end, t + 1);
    }
  }

  // ---- soundness: a verdict of true is always right ---------------------------------------------

  /** Some later restart of the remembered star would match. */
  ghost predicate RetryMatches(pat: string, txt: string, star: int, mark: int) {
    star >= 0 && star < |pat| && mark >= 0 &&
    exists k :: mark < k <= |txt| && Matches(pat[star + 1..], txt[k..])
  }

  lemma {:induction false} ScanSound(pat: string, txt: string, p: int, t: int, star: int, mark: int)
    requires CursorOk(pat, txt, p, t, star, mark)
    requires Scan(pat, txt, p, t, star, mark)
    ensures Matches(pat[p..], txt[t..]) || RetryMatches(pat, txt, star, mark)
    decreases |txt| - mark, |txt| - t, |pat| - p
  {
    if t == |txt| {
      AllStarsMatchNothing(pat[p..]);
    } else if p < |pat| && (pat[p] == '?' || pat[p] == txt[t]) {
      ScanSound(pat, txt, p + 1, t + 1, star, mark);
      if Matches(pat[p + 1..], txt[t + 1..]) {
        if pat[p] == '*' {
          StarAbsorbs(pat, txt, p, t, t + 1);
        } else {
          assert pat[p..][1..] == pat[p + 1..] && txt[t..][1..] == txt[t + 1..];
        }
      }
    } else if p < |pat| && pat[p] == '*' {
      ScanSound(pat, txt, p + 1, t, p, t);
      if Matches(pat[p + 1..], txt[t..]) {
        StarAbsorbs(pat, txt, p, t, t);
      } else {
        var k :| t < k <= |txt| && Matches(pat[p + 1..], txt[k..]);
        StarAbsorbs(pat, txt, p, t, k);
      }
    } else {
      ScanSound(pat, txt, star + 1, mark + 1, star, mark + 1);
    }
  }

  /** No false accepts, whatever the pattern and the name. */
  lemma {:induction false} VerdictSound(pattern: string, name: string)
    ensures Verdict(pattern, name) ==> Accepts(pattern, name)
  {
    var txt := Normalized(name);
    if pattern != [] && Verdict(pattern, name) {
      ScanSound(pattern, txt, 0, 0, NO_STAR, 0);
      assert pattern[0..] == pattern && txt[0..] == txt;
    }
  }

  // ---- completeness: forgetting all but the last star loses nothing ------------------------------

  /** Since the remembered star, the scan has walked a star-free stretch in step with the text. */
  predicate InStep(pat: string, p: int, t: int, star: int, mark: int) {
    star >= 0 ==> t - mark == p - star - 1 && forall i :: star < i < p && i < |pat| ==> pat[i] != '*'
  }

  /** Once the text is used up in step with the pattern, too little text is left for any retry. */
  lemma NoRetryAtTheEnd(pat: string, txt: string, p: int, star: int, mark: int)
    requires CursorOk(pat, txt, p, |txt|, star, mark) && InStep(pat, p, |txt|, star, mark)
    ensures !RetryMatches(pat, txt, star, mark)
  {
    if RetryMatches(pat, txt, star, mark) {
      var k :| mark < k <= |txt| && Matches(pat[star + 1..], txt[k..]);
      StarFreeStretchConsumes(pat, txt, star + 1, p, k);
    }
  }

  /** Reaching another star, whatever the old one could still achieve the new one can as well. */
  lemma NewStarSubsumesOld(pat: string, txt: string, p: int, t: int, star: int, mark: int)
    requires CursorOk(pat, txt, p, t, star, mark) && InStep(pat, p, t, star, mark)
    requires p < |pat| && pat[p] == '*'
    requires Matches(pat[p..], txt[t..]) || RetryMatches(pat, txt, star, mark)
    ensures Matches(pat[p + 1..], txt[t..]) || RetryMatches(pat, txt, p, t)
  {
    if Matches(pat[p..], txt[t..]) {
      var k := StarSplits(pat, txt, p, t);
    } else {
      var k :| mark < k <= |txt| && Matches(pat[star + 1..], txt[k..]);
      StarFreeStretchConsumes(pat, txt, star + 1, p, k);
      var k' := StarSplits(pat, txt, p, k + (p - star - 1));
    }
  }

  lemma NextMark(pat: string, txt: string, star: int, mark: int)
    requires RetryMatches(pat, txt, star, mark)
    ensures mark < |txt|
    ensures Matches(pat[star + 1..], txt[mark + 1..]) || RetryMatches(pat, txt, star, mark + 1)
  {
  }

  /** On text without `*` the scan finds every match still open to it, here or after a retry. */
  lemma {:induction false} ScanComplete(pat: string, txt: string, p: int, t: int, star: int, mark: int)
    requires StarFree(txt)
    requires CursorOk(pat, txt, p, t, star, mark) && InStep(pat, p, t, star, mark)
    requires Matches(pat[p..], txt[t..]) || RetryMatches(pat, txt, star, mark)
    ensures Scan(pat, txt, p, t, star, mark)
    decreases |txt| - mark, |txt| - t, |pat| - p
  {
    if t == |txt| {
      AllStarsMatchNothing(pat[p..]);
      NoRetryAtTheEnd(pat, txt, p, star, mark);
    } else if p < |pat| && (pat[p] == '?' || pat[p] == txt[t]) {
      assert pat[p..][1..] == pat[p + 1..] && txt[t..][1..] == txt[t + 1..];
      ScanComplete(pat, txt, p + 1, t + 1, star, mark);
    } else if p < |pat| && pat[p] == '*' {
      NewStarSubsumesOld(pat, txt, p, t, star, mark);
      ScanComplete(pat, txt, p + 1, t, p, t);
    } else {
      assert !Matches(pat[p..], txt[t..]);
      NextMark(pat, txt, star, mark);
      ScanComplete(pat, txt, star + 1, mark + 1, star, mark + 1);
    }
  }

  lemma {:induction false} NormalizedKeepsStars(s: string)
    ensures StarFree(Normalized(s)) == StarFree(s)
  {
    if s != [] {
      NormalizedKeepsStars(s[1..]);
      assert s == [s[0]] + s[1..];
      assert UpperChar(s[0]) == '*' <==> s[0] == '*';
    }
  }

  /** Without stars in the pattern nothing is ever remembered, so nothing can be forgotten. */
  lemma {:induction false} ScanExactForStarFreePattern(pat: string, txt: string, p: int, t: int)
    requires StarFree(pat) && CursorOk(pat, txt, p, t, NO_STAR, 0)
    ensures Scan(pat, txt, p, t, NO_STAR, 0) == Matches(pat[p..], txt[t..])
    decreases |txt| - t
  {
    if t == |txt| {
      AllStarsMatchNothing(pat[p..]);
    } else if p < |pat| && (pat[p] == '?' || pat[p] == txt[t]) {
      ScanExactForStarFreePattern(pat, txt, p + 1, t + 1);
      assert pat[p..][1..] == pat[p + 1..] && txt[t..][1..] == txt[t + 1..];
    }
  }

  lemma {:induction false} VerdictExactWhenEitherSideIsStarFree(pattern: string, name: string)
    requires StarFree(name) || StarFree(pattern)
    ensures Verdict(pattern, name) == Accepts(pattern, name)
  {
    var txt := Normalized(name);
    assert pattern[0..] == pattern && txt[0..] == txt;
    if StarFree(name) {
      NormalizedKeepsStars(name);
      if Matches(pattern, txt) {
        ScanComplete(pattern, txt, 0, 0, NO_STAR, 0);
      }
      VerdictSound(pattern, name);
    } else {
      ScanExactForStarFreePattern(pattern, txt, 0, 0);
    }
  }

  // ---- the guard is exact: every name and every pattern with a `*` has a failing partner ----------

  /** Where pattern and text agree position by position the scan walks both to the end. */
  lemma {:induction false} ScanWalksAgreement(pat: string, txt: string, from: int, end: int)
    requires 0 <= from <= end <= |pat| && end <= |txt|
    requires forall i :: from <= i < end ==> pat[i] == '?' || pat[i] == txt[i]
    ensures Scan(pat, txt, from, from, NO_STAR, 0) == Scan(pat, txt, end, end, NO_STAR, 0)
    decreases end - from
  {
    if from < end {
      ScanWalksAgreement(pat, txt, from + 1, end);
    }
  }

  function QuestionMarks(n: nat): (s: string)
    ensures |s| == n && forall i :: 0 <= i < n ==> s[i] == '?'
  {
    seq(n, _ => '?')
  }

  lemma {:induction false} QuestionMarksMatch(prefix: string, p: string, t: string)
    requires Matches(p, t)
    ensures Matches(QuestionMarks(|prefix|) + p, prefix + t)
  {
    var q := QuestionMarks(|prefix|) + p;
    if prefix == [] {
      assert q == p && prefix + t == t;
    } else {
      QuestionMarksMatch(prefix[1..], p, t);
      assert q[1..] == QuestionMarks(|prefix[1..]|) + p;
      assert (prefix + t)[1..] == prefix[1..] + t;
    }
  }

  /** A pattern that accepts `name`, yet the scan rejects it. */
  lemma {:induction false} EveryStarredNameDefeatsTheScan(name: string) returns (pattern: string)
    requires !StarFree(name)
    ensures Accepts(pattern, name) && !Verdict(pattern, name)
  {
    NormalizedKeepsStars(name);
    var txt := Normalized(name);
    var i :| 0 <= i < |txt| && txt[i] == '*';
    pattern := QuestionMarks(i) + ("*" + QuestionMarks(|txt| - i));
    hide Normalized;
    StarMayBeEmpty(txt, i);
    ScanSpendsStar(txt, i);
  }

  /** The star may stand for nothing ... */
  lemma {:induction false} StarMayBeEmpty(txt: string, i: nat)
    requires i < |txt| && txt[i] == '*'
    ensures Matches(QuestionMarks(i) + ("*" + QuestionMarks(|txt| - i)), txt)
  {
    var tail := txt[i..];
    QuestionMarksMatch(tail, [], []);
    assert QuestionMarks(|tail|) + [] == QuestionMarks(|txt| - i) && tail + [] == tail;
    assert ("*" + QuestionMarks(|txt| - i))[1..] == QuestionMarks(|txt| - i);
    QuestionMarksMatch(txt[..i], "*" + QuestionMarks(|txt| - i), tail);
    assert txt[..i] + tail == txt;
  }

  /** ... but the scan spends it on the literal star of the name. */
  lemma {:induction false} ScanSpendsStar(txt: string, i: nat)
    requires i < |txt| && txt[i] == '*'
    ensures !Scan(QuestionMarks(i) + ("*" + QuestionMarks(|txt| - i)), txt, 0, 0, NO_STAR, 0)
  {
    var pattern := QuestionMarks(i) + ("*" + QuestionMarks(|txt| - i));
    ScanWalksAgreement(pattern, txt, 0, |txt|);
    assert pattern[|txt|..][0] == '?';
  }

  lemma {:induction false} PrefixMatchesItself(prefix: string, p: string, t: string)
    requires Matches(p, t)
    ensures Matches(prefix + p, prefix + t)
  {
    if prefix == [] {
      assert prefix + p == p && prefix + t == t;
    } else {
      PrefixMatchesItself(prefix[1..], p, t);
      assert (prefix + p)[1..] == prefix[1..] + p && (prefix + t)[1..] == prefix[1..] + t;
      if prefix[0] == '*' {
        StarAbsorbs(prefix + p, prefix + t, 0, 0, 1);
        assert (prefix + p)[0..] == prefix + p && (prefix + t)[0..] == prefix + t;
      }
    }
  }

  lemma {:induction false} LastStar(s: string) returns (i: nat)
    requires !StarFree(s)
    ensures i < |s| && s[i] == '*' && StarFree(s[i + 1..])
  {
    if StarFree(s[1..]) {
      i := 0;
      assert s == [s[0]] + s[1..];
    } else {
      i := LastStar(s[1..]);
      assert s[1..][i + 1..] == s[i + 1 + 1..];
      i := i + 1;
    }
  }

  lemma {:induction false} ConcatNormal(a: string, b: string)
    ensures Normalized(a + b) == Normalized(a) + Normalized(b)
  {
    if a == [] {
      assert a + b == b;
    } else {
      ConcatNormal(a[1..], b);
      assert (a + b)[1..] == a[1..] + b;
      NormalizedUnfolds(a);
      NormalizedUnfolds(a + b);
      hide Normalized;
      Associates([UpperChar(a[0])], Normalized(a[1..]), Normalized(b));
    }
  }

  /** Taking already normalised pieces of a text keeps them normalised. */
  lemma {:induction false} PrefixNormal(a: string, b: string)
    requires Normalized(a + b) == a + b
    ensures Normalized(a) == a && Normalized(b) == b
  {
    ConcatNormal(a, b);
    NormalizedNotLonger(a);
    NormalizedNotLonger(b);
    assert |Normalized(a)| == |a|;
    assert a == (a + b)[..|a|] == Normalized(a);
    assert b == (a + b)[|a|..] == Normalized(b);
  }

  lemma {:induction false} NormalizedNotLonger(a: string)
    ensures |Normalized(a)| <= |a|
  {
    if a != [] {
      NormalizedNotLonger(a[1..]);
    }
  }

  /** Doubling the last star of a pattern gives a text that the pattern still matches. */
  lemma DoubledStarStillMatches(head: string, rest: string)
    ensures Matches(head + ("*" + rest), head + ("**" + rest))
  {
    var starRest, twoStarsRest := "*" + rest, "**" + rest;
    PrefixMatchesItself(rest, [], []);
    assert rest + [] == rest;
    assert starRest[0..] == starRest && starRest[1..] == rest;
    assert twoStarsRest[0..] == twoStarsRest && twoStarsRest[2..] == rest;
    StarAbsorbs(starRest, twoStarsRest, 0, 0, 2);
    PrefixMatchesItself(head, starRest, twoStarsRest);
  }

  lemma DoubledStarStaysNormal(head: string, rest: string)
    requires Normalized(head + ("*" + rest)) == head + ("*" + rest)
    ensures Normalized(head + ("**" + rest)) == head + ("**" + rest)
  {
    PrefixNormal(head, "*" + rest);
    PrefixNormal("*", rest);
    ConcatNormal(head, "**" + rest);
    ConcatNormal("**", rest);
    assert "**"[1..] == "*" && "*"[1..] == "";
    assert Normalized("**") == "**";
  }

  /** A name that the (upper-case) pattern accepts, yet the scan rejects. */
  lemma EveryStarredPatternIsDefeated(pattern: string) returns (name: string)
    requires !StarFree(pattern) && Normalized(pattern) == pattern
    ensures Accepts(pattern, name) && !Verdict(pattern, name)
  {
    var i := LastStar(pattern);
    var head, rest := pattern[..i], pattern[i + 1..];
    assert pattern == head + ("*" + rest);
    name := head + ("**" + rest);
    DoubledStarStaysNormal(head, rest);
    DoubledStarStillMatches(head, rest);
    assert !Scan(pattern, name, 0, 0, NO_STAR, 0) by {
      ScanWalksAgreement(pattern, name, 0, i + 1);
      StarFreeTailNeedsEqualLength(pattern, name, i + 1, i + 1);
    }
  }

  lemma {:induction false} StarFreeTailNeedsEqualLength(pat: string, txt: string, p: int, t: int)
    requires CursorOk(pat, txt, p, t, NO_STAR, 0) && StarFree(pat[p..])
    ensures Scan(pat, txt, p, t, NO_STAR, 0) ==> |pat| - p == |txt| - t
    decreases |txt| - t
  {
    if t == |txt| {
      if p < |pat| { assert pat[p..][0] != '*'; }
    } else if p < |pat| {
      assert pat[p] == pat[p..][0];
      assert pat[p + 1..] == pat[p..][1..];
      if pat[p] == '?' || pat[p] == txt[t] {
        StarFreeTailNeedsEqualLength(pat, txt, p + 1, t + 1);
      }
    }
  }

  /** A name is matched correctly by every pattern if and only if it holds no `*`. */
  lemma {:induction false} ExactForAllPatternsIff(name: string)
    ensures (forall pattern :: Verdict(pattern, name) == Accepts(pattern, name)) <==> StarFree(name)
  {
    if StarFree(name) {
      forall pattern: string ensures Verdict(pattern, name) == Accepts(pattern, name) {
        VerdictExactWhenEitherSideIsStarFree(pattern, name);
      }
    } else {
      var pattern := EveryStarredNameDefeatsTheScan(name);
    }
  }

  /** An upper-case pattern is applied correctly to every name if and only if it holds no `*`. */
  lemma {:induction false} ExactForAllNamesIff(pattern: string)
    requires Normalized(pattern) == pattern
    ensures (forall name :: Verdict(pattern, name) == Accepts(pattern, name)) <==> StarFree(pattern)
  {
    if StarFree(pattern) {
      forall name: string ensures Verdict(pattern, name) == Accepts(pattern, name) {
        VerdictExactWhenEitherSideIsStarFree(pattern, name);
      }
    } else {
      var name := EveryStarredPatternIsDefeated(pattern);
    }
  }
}
