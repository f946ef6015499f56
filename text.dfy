/**
 * String operations of Python's `str` that the core relies on: prefix and
 * suffix tests, ASCII case mapping, and left-to-right replacement of every
 * non-overlapping occurrence of a pattern (`str.replace`, and `re.sub` with a
 * pattern that holds no regular-expression metacharacter).
 */
module Text {

  predicate StartsWith(s: string, p: string) {
    |p| <= |s| && s[..|p|] == p
  }

  predicate EndsWith(s: string, p: string) {
    |p| <= |s| && s[|s| - |p|..] == p
  }

  function LowerChar(c: char): char {
    if 'A' <= c <= 'Z' then (c as int + 32) as char else c
  }

  function UpperChar(c: char): char {
    if 'a' <= c <= 'z' then (c as int - 32) as char else c
  }

  /** `str.lower()` restricted to ASCII letters. */
  function Lower(s: string): string {
    seq(|s|, i requires 0 <= i < |s| => LowerChar(s[i]))
  }

  /** `str.upper()` restricted to ASCII letters. */
  function Upper(s: string): string {
    seq(|s|, i requires 0 <= i < |s| => UpperChar(s[i]))
  }

  /** `pat` occurs in `s` at index `i`. */
  predicate OccursAt(s: string, pat: string, i: int) {
    0 <= i && i + |pat| <= |s| && s[i..i + |pat|] == pat
  }

  /** `pat` occurs somewhere in `s`. */
  ghost predicate Occurs(s: string, pat: string) {
    exists i :: OccursAt(s, pat, i)
  }

  /**
   * `s.replace(pat, rep)`: scans left to right and replaces each
   * non-overlapping occurrence of `pat`; with an empty `pat`, `rep` is
   * inserted before every character and at the end, as Python does.
   */
  function ReplaceAll(s: string, pat: string, rep: string): string
    decreases |s|
  {
    if pat == [] then
      (if s == [] then rep else rep + [s[0]] + ReplaceAll(s[1..], pat, rep))
    else if |s| < |pat| then s
    else if s[..|pat|] == pat then rep + ReplaceAll(s[|pat|..], pat, rep)
    else [s[0]] + ReplaceAll(s[1..], pat, rep)
  }

  /** `sep.join(chunks)`. */
  function Joined(chunks: seq<string>, sep: string): string
    decreases |chunks|
  {
    if |chunks| == 0 then ""
    else if |chunks| == 1 then chunks[0]
    else chunks[0] + sep + Joined(chunks[1..], sep)
  }

  /** Text in which the pattern does not occur is returned unchanged. */
  lemma {:induction false} ReplaceAllAbsent(s: string, pat: string, rep: string)
    requires pat != [] && !Occurs(s, pat)
    ensures ReplaceAll(s, pat, rep) == s
    decreases |s|
  {
    if |s| >= |pat| {
      assert !OccursAt(s, pat, 0);
      assert s[0..0 + |pat|] == s[..|pat|];
      var t := s[1..];
      forall i | 0 <= i && i + |pat| <= |t|
        ensures !OccursAt(t, pat, i)
      {
        assert !OccursAt(s, pat, i + 1);
        assert t[i..i + |pat|] == s[i + 1..i + 1 + |pat|];
      }
      ReplaceAllAbsent(t, pat, rep);
      assert s == [s[0]] + t;
    }
  }

  /** A first character that cannot start the pattern is copied through. */
  lemma ReplaceAllCopiesHead(s: string, pat: string, rep: string)
    requires pat != [] && s != [] && s[0] != pat[0]
    ensures ReplaceAll(s, pat, rep) == [s[0]] + ReplaceAll(s[1..], pat, rep)
  {
    if |s| < |pat| {
      assert ReplaceAll(s[1..], pat, rep) == s[1..];
      assert s == [s[0]] + s[1..];
    } else {
      assert s[..|pat|][0] != pat[0];
    }
  }

  /**
   * A prefix that cannot start an occurrence of the pattern is copied
   * through, and the scan continues on the rest.
   */
  lemma {:induction false} ReplaceAllSkipsFree(c: string, rest: string, pat: string, rep: string)
    requires pat != [] && pat[0] !in c
    ensures ReplaceAll(c + rest, pat, rep) == c + ReplaceAll(rest, pat, rep)
    decreases |c|
  {
    if c != [] {
      var s := c + rest;
      assert s[0] == c[0] && c[0] in c;
      ReplaceAllCopiesHead(s, pat, rep);
      assert s[1..] == c[1..] + rest;
      ReplaceAllSkipsFree(c[1..], rest, pat, rep);
      assert c == [c[0]] + c[1..];
    } else {
      assert c + rest == rest;
    }
  }

  /**
   * When no chunk holds the pattern's first character, replacing the
   * separators of a join replaces exactly them: every occurrence becomes
   * `rep` verbatim and nothing else changes.
   */
  lemma {:induction false} ReplaceAllJoined(chunks: seq<string>, pat: string, rep: string)
    requires pat != []
    requires forall i :: 0 <= i < |chunks| ==> pat[0] !in chunks[i]
    ensures ReplaceAll(Joined(chunks, pat), pat, rep) == Joined(chunks, rep)
    decreases |chunks|
  {
    if |chunks| == 1 {
      ReplaceAllSkipsFree(chunks[0], "", pat, rep);
      assert chunks[0] + "" == chunks[0];
    } else if |chunks| > 1 {
      var tail := Joined(chunks[1..], pat);
      assert Joined(chunks, pat) == chunks[0] + (pat + tail);
      ReplaceAllSkipsFree(chunks[0], pat + tail, pat, rep);
      assert (pat + tail)[..|pat|] == pat;
      assert (pat + tail)[|pat|..] == tail;
      ReplaceAllJoined(chunks[1..], pat, rep);
    }
  }
}
