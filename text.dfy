/** The three Python string builtins the handler relies on — `str.startswith`,
    `in` (substring test) and `str.replace` — and `str.lower` restricted to
    the characters that matter for the maintenance flag. */
module Text {

  /** `s.startswith(prefix)`. */
  predicate StartsWith(s: string, prefix: string) {
    |prefix| <= |s| && s[..|prefix|] == prefix
  }

  /** `p in s`: some suffix of `s` starts with `p`. */
  predicate Contains(s: string, p: string)
    decreases |s|
  {
    StartsWith(s, p) || (|s| > 0 && Contains(s[1..], p))
  }

  /** `s.replace(pat, rep)`: one left-to-right pass; each match is replaced
      and scanning resumes after it, so matches never overlap and text produced
      by a replacement is never rescanned. */
  function ReplaceAll(s: string, pat: string, rep: string): string
    requires |pat| > 0
    decreases |s|
  {
    if StartsWith(s, pat) then rep + ReplaceAll(s[|pat|..], pat, rep)
    else if s == [] then []
    else [s[0]] + ReplaceAll(s[1..], pat, rep)
  }

  /** No character of `s` is an opening brace. */
  predicate NoOpenBrace(s: string) {
    forall i :: 0 <= i < |s| ==> s[i] != '{'
  }

  lemma NoOpenBraceByMembership(s: string)
    requires '{' !in s
    ensures NoOpenBrace(s)
  {
    forall i | 0 <= i < |s| ensures s[i] != '{' {
      assert s[i] in s;
    }
  }

  lemma BraceFreeByMembership(s: string)
    requires '{' !in s && '}' !in s
    ensures BraceFree(s)
  {
    forall i | 0 <= i < |s| ensures s[i] != '{' && s[i] != '}' {
      assert s[i] in s;
    }
  }

  lemma NoOpenBraceConcat(a: string, b: string)
    requires NoOpenBrace(a) && NoOpenBrace(b)
    ensures NoOpenBrace(a + b)
  {
    assert forall i :: 0 <= i < |a + b| ==> (a + b)[i] == if i < |a| then a[i] else b[i - |a|];
  }

  /** No character of `s` is a brace of either kind. */
  predicate BraceFree(s: string) {
    forall i :: 0 <= i < |s| ==> s[i] != '{' && s[i] != '}'
  }

  /** No match of `pat` starts at any of the first `n` positions of `s`. */
  predicate NoMatchBefore(s: string, n: nat, pat: string)
    requires n <= |s|
  {
    forall i :: 0 <= i < n ==> !StartsWith(s[i..], pat)
  }

  function LowerChar(c: char): char {
    if 'A' <= c <= 'Z' then (c as int + 32) as char else c
  }

  /** `s.lower()` on ASCII letters; every other character is kept. */
  function Lower(s: string): (r: string)
    ensures |r| == |s|
    ensures forall i :: 0 <= i < |s| ==> r[i] == LowerChar(s[i])
  {
    seq(|s|, i requires 0 <= i < |s| => LowerChar(s[i]))
  }

  // ----- lemmas about StartsWith and Contains -----

  /** `startswith` is exactly "is a prefix of". */
  lemma StartsWithConcat(s: string, prefix: string)
    ensures StartsWith(s, prefix) <==> exists rest :: s == prefix + rest
  {
    if StartsWith(s, prefix) {
      assert s == prefix + s[|prefix|..];
    }
    if exists rest :: s == prefix + rest {
      var rest :| s == prefix + rest;
      assert s[..|prefix|] == prefix;
    }
  }

  /** Whatever `b` contains, `a + b` contains. */
  lemma {:induction false} ContainsInSuffix(a: string, b: string, p: string)
    requires Contains(b, p)
    ensures Contains(a + b, p)
    decreases |a|
  {
    if a != [] {
      assert (a + b)[1..] == a[1..] + b;
      ContainsInSuffix(a[1..], b, p);
      assert Contains((a + b)[1..], p);
    } else {
      assert a + b == b;
    }
  }

  /** An occurrence of `p` that starts at none of the first `m` positions
      lies in `s[m..]`. */
  lemma {:induction false} ContainsSkip(s: string, m: nat, p: string)
    requires m <= |s| && Contains(s, p)
    requires forall i :: 0 <= i < m ==> !StartsWith(s[i..], p)
    ensures Contains(s[m..], p)
    decreases m
  {
    if m > 0 {
      assert s[0..] == s;
      forall i | 0 <= i < m - 1
        ensures !StartsWith(s[1..][i..], p)
      {
        assert s[1..][i..] == s[i + 1..];
      }
      ContainsSkip(s[1..], m - 1, p);
      assert s[1..][m - 1..] == s[m..];
    } else {
      assert s[0..] == s;
    }
  }

  /** A string that starts with `p` has `p`'s first two characters in front. */
  lemma StartsWithHead(s: string, p: string)
    requires |p| >= 2
    ensures StartsWith(s, p) ==> s[0] == p[0] && s[1] == p[1]
  {
    if StartsWith(s, p) {
      assert s[..|p|][0] == s[0] && s[..|p|][1] == s[1];
    }
  }

  /** `p` occurs in `a + p + b`. */
  lemma ContainsMiddle(a: string, p: string, b: string)
    ensures Contains(a + p + b, p)
  {
    assert (p + b)[..|p|] == p;
    assert Contains(p + b, p);
    assert a + p + b == a + (p + b);
    ContainsInSuffix(a, p + b, p);
  }

  /** A string without `{` contains no pattern that starts with `{`. */
  lemma {:induction false} NoOpenBraceNoMatch(s: string, pat: string)
    requires NoOpenBrace(s)
    requires |pat| > 0 && pat[0] == '{'
    ensures !Contains(s, pat)
    decreases |s|
  {
    if |pat| <= |s| {
      assert s[..|pat|][0] != pat[0];
    }
    if |s| > 0 {
      NoOpenBraceNoMatch(s[1..], pat);
    }
  }

  // ----- lemmas about ReplaceAll -----

  /** Where the pattern does not occur, `replace` changes nothing. */
  lemma {:induction false} ReplaceAllAbsent(s: string, pat: string, rep: string)
    requires |pat| > 0
    requires !Contains(s, pat)
    ensures ReplaceAll(s, pat, rep) == s
    decreases |s|
  {
    if s != [] {
      ReplaceAllAbsent(s[1..], pat, rep);
    }
  }

  /** A prefix `a` in which no match starts is copied unchanged. */
  lemma {:induction false} ReplaceAllSkip(a: string, b: string, pat: string, rep: string)
    requires |pat| > 0
    requires NoMatchBefore(a + b, |a|, pat)
    ensures ReplaceAll(a + b, pat, rep) == a + ReplaceAll(b, pat, rep)
    decreases |a|
  {
    if a != [] {
      var s := a + b;
      assert s[0..] == s;
      assert !StartsWith(s, pat);
      assert s[1..] == a[1..] + b;
      forall i | 0 <= i < |a[1..]|
        ensures !StartsWith((a[1..] + b)[i..], pat)
      {
        assert (a[1..] + b)[i..] == s[i + 1..];
      }
      ReplaceAllSkip(a[1..], b, pat, rep);
      assert ReplaceAll(s, pat, rep) == [s[0]] + ReplaceAll(s[1..], pat, rep);
      assert [s[0]] + (a[1..] + ReplaceAll(b, pat, rep)) == a + ReplaceAll(b, pat, rep);
    } else {
      assert a + b == b;
    }
  }

  /** A prefix without `{` is copied unchanged when the pattern starts with `{`. */
  lemma ReplaceAllSkipText(a: string, b: string, pat: string, rep: string)
    requires |pat| > 0 && pat[0] == '{'
    requires NoOpenBrace(a)
    ensures ReplaceAll(a + b, pat, rep) == a + ReplaceAll(b, pat, rep)
  {
    forall i | 0 <= i < |a|
      ensures !StartsWith((a + b)[i..], pat)
    {
      assert (a + b)[i..][0] == a[i] != pat[0];
    }
    ReplaceAllSkip(a, b, pat, rep);
  }

  /** A match at the front is replaced, and the scan resumes after it. */
  lemma ReplaceAllFront(b: string, pat: string, rep: string)
    requires |pat| > 0
    ensures ReplaceAll(pat + b, pat, rep) == rep + ReplaceAll(b, pat, rep)
  {
    assert (pat + b)[..|pat|] == pat;
    assert (pat + b)[|pat|..] == b;
  }

  // ----- lowercasing -----

  /** The spellings of "true" in any mix of upper and lower case. */
  predicate IsTrueInAnyCase(s: string) {
    |s| == 4 && s[0] in "tT" && s[1] in "rR" && s[2] in "uU" && s[3] in "eE"
  }

  /** `s.lower() == "true"` exactly when `s` is "true" in some mix of cases. */
  lemma LowerIsTrue(s: string)
    ensures Lower(s) == "true" <==> IsTrueInAnyCase(s)
  {
    if IsTrueInAnyCase(s) {
      assert Lower(s) == [Lower(s)[0], Lower(s)[1], Lower(s)[2], Lower(s)[3]];
    }
    if Lower(s) == "true" {
      assert LowerChar(s[0]) == 't' && LowerChar(s[1]) == 'r';
      assert LowerChar(s[2]) == 'u' && LowerChar(s[3]) == 'e';
    }
  }
}
