/**
 * The parts of Python's `str` behaviour that the modelled code relies on:
 * whitespace as `str.isspace()` defines it, `strip()`, `split()` with and
 * without a separator, `join`, `str()` of an integer, `startswith`,
 * `endswith`, `lower()` and the `in` test for substrings.
 */
module Text {

  /** Exactly the characters for which Python's `str.isspace()` holds. */
  predicate IsSpace(c: char) {
    || c == ' ' || c == '\t' || c == '\n' || c == '\r' || c == '\U{B}' || c == '\U{C}'
    || ('\U{1C}' <= c <= '\U{1F}')
    || c == '\U{85}' || c == '\U{A0}' || c == '\U{1680}'
    || ('\U{2000}' <= c <= '\U{200A}')
    || c == '\U{2028}' || c == '\U{2029}' || c == '\U{202F}' || c == '\U{205F}' || c == '\U{3000}'
  }

  predicate AllSpace(s: string) {
    forall i :: 0 <= i < |s| ==> IsSpace(s[i])
  }

  // ---------------------------------------------------------------------------
  // strip()
  // ---------------------------------------------------------------------------

  /** The first index at or after `i` that is not whitespace, or `|s|`. */
  function SpaceRunEnd(s: string, i: nat): (n: nat)
    requires i <= |s|
    ensures i <= n <= |s|
    decreases |s| - i
  {
    if i < |s| && IsSpace(s[i]) then SpaceRunEnd(s, i + 1) else i
  }

  /** The start of the whitespace run that ends at `j`, looking no further back than `lo`. */
  function SpaceRunStart(s: string, lo: nat, j: nat): (n: nat)
    requires lo <= j <= |s|
    ensures lo <= n <= j
    decreases j
  {
    if j > lo && IsSpace(s[j - 1]) then SpaceRunStart(s, lo, j - 1) else j
  }

  /** The forward run is all whitespace and stops before a non-space character. */
  lemma {:induction false} SpaceRunEndExact(s: string, i: nat)
    requires i <= |s|
    ensures forall k :: i <= k < SpaceRunEnd(s, i) ==> IsSpace(s[k])
    ensures SpaceRunEnd(s, i) == |s| || !IsSpace(s[SpaceRunEnd(s, i)])
    decreases |s| - i
  {
    if i < |s| && IsSpace(s[i]) {
      SpaceRunEndExact(s, i + 1);
    }
  }

  /** The backward run is all whitespace and starts after a non-space character. */
  lemma {:induction false} SpaceRunStartExact(s: string, lo: nat, j: nat)
    requires lo <= j <= |s|
    ensures forall k :: SpaceRunStart(s, lo, j) <= k < j ==> IsSpace(s[k])
    ensures SpaceRunStart(s, lo, j) == lo || !IsSpace(s[SpaceRunStart(s, lo, j) - 1])
    decreases j
  {
    if j > lo && IsSpace(s[j - 1]) {
      SpaceRunStartExact(s, lo, j - 1);
    }
  }

  /** Where `s.strip()` begins in `s`. */
  function StripStart(s: string): nat {
    SpaceRunEnd(s, 0)
  }

  /** Where `s.strip()` ends in `s`. */
  function StripEnd(s: string): (n: nat)
    ensures StripStart(s) <= n <= |s|
  {
    SpaceRunStart(s, StripStart(s), |s|)
  }

  /** Python's `s.strip()`: the text with leading and trailing whitespace removed. */
  function Strip(s: string): string {
    s[StripStart(s)..StripEnd(s)]
  }

  /** `s.strip()` is empty exactly when `s` is whitespace only (the `if text.strip():` test). */
  lemma StripEmptyIffAllSpace(s: string)
    ensures Strip(s) == [] <==> AllSpace(s)
  {
    SpaceRunEndExact(s, 0);
    SpaceRunStartExact(s, StripStart(s), |s|);
  }

  /** A stripped text neither starts nor ends with whitespace, and all it dropped was whitespace. */
  lemma StripHasNoOuterSpace(s: string)
    ensures var r := Strip(s); r == [] || (!IsSpace(r[0]) && !IsSpace(r[|r| - 1]))
    ensures forall k :: 0 <= k < StripStart(s) || StripEnd(s) <= k < |s| ==> IsSpace(s[k])
  {
    SpaceRunEndExact(s, 0);
    SpaceRunStartExact(s, StripStart(s), |s|);
  }

  /** Stripping keeps a contiguous piece of the text. */
  lemma StripIsSubstring(s: string)
    ensures IsSubstring(Strip(s), s)
  {
    assert OccursAt(Strip(s), s, StripStart(s));
  }

  // ---------------------------------------------------------------------------
  // split() without a separator
  // ---------------------------------------------------------------------------

  /** A word of `str.split()`: a non-empty run of non-whitespace characters. */
  predicate IsWord(w: string) {
    |w| > 0 && forall i :: 0 <= i < |w| ==> !IsSpace(w[i])
  }

  /** The length of the run of non-whitespace characters at the front of `s`. */
  function WordLength(s: string): (n: nat)
    ensures n <= |s|
    ensures forall i :: 0 <= i < n ==> !IsSpace(s[i])
    ensures n == |s| || IsSpace(s[n])
  {
    if s == [] || IsSpace(s[0]) then 0 else 1 + WordLength(s[1..])
  }

  /** Python's `s.split()`: the maximal runs of non-whitespace characters, in order. */
  function Split(s: string): (words: seq<string>)
    decreases |s|
  {
    if s == [] then []
    else if IsSpace(s[0]) then Split(s[1..])
    else
      var n := WordLength(s);
      [s[..n]] + Split(s[n..])
  }

  /** Every piece `split()` returns is a word. */
  lemma {:induction false} SplitGivesWords(s: string)
    ensures forall w :: w in Split(s) ==> IsWord(w)
    decreases |s|
  {
    if s == [] {
    } else if IsSpace(s[0]) {
      SplitGivesWords(s[1..]);
    } else {
      SplitGivesWords(s[WordLength(s)..]);
    }
  }

  /** `split()` of whitespace-only text is empty, and conversely. */
  lemma {:induction false} SplitEmptyIffAllSpace(s: string)
    ensures Split(s) == [] <==> AllSpace(s)
    decreases |s|
  {
    if s == [] {
    } else if IsSpace(s[0]) {
      SplitEmptyIffAllSpace(s[1..]);
      if AllSpace(s[1..]) {
        forall i | 0 <= i < |s| ensures IsSpace(s[i]) {
          if i > 0 { assert s[i] == s[1..][i - 1]; }
        }
      }
    } else {
      assert !AllSpace(s);
    }
  }

  /** `join` with a separator: Python's `sep.join(parts)`. */
  function Join(sep: string, parts: seq<string>): string {
    if |parts| == 0 then ""
    else if |parts| == 1 then parts[0]
    else parts[0] + sep + Join(sep, parts[1..])
  }

  /** Appending a part to a non-empty list appends the separator and the part to the joined text. */
  lemma {:induction false} JoinAppend(sep: string, parts: seq<string>, last: string)
    requires |parts| > 0
    ensures Join(sep, parts + [last]) == Join(sep, parts) + sep + last
  {
    if |parts| > 1 {
      assert (parts + [last])[1..] == parts[1..] + [last];
      JoinAppend(sep, parts[1..], last);
    }
  }

  /** Joining words with one space and splitting again gives the words back. */
  lemma {:induction false} SplitJoin(words: seq<string>)
    requires forall i :: 0 <= i < |words| ==> IsWord(words[i])
    ensures Split(Join(" ", words)) == words
  {
    if |words| == 0 {
    } else if |words| == 1 {
      SplitWord(words[0], "");
      assert words[0] + "" == words[0];
    } else {
      var rest := Join(" ", words[1..]);
      var w := words[0];
      assert Join(" ", words) == w + (" " + rest);
      SplitWord(w, " " + rest);
      assert (" " + rest)[1..] == rest;
      SplitJoin(words[1..]);
      assert words == [w] + words[1..];
    }
  }

  /** A word followed by nothing or by whitespace splits off as one piece. */
  lemma SplitWord(w: string, tail: string)
    requires IsWord(w)
    requires tail == [] || IsSpace(tail[0])
    ensures Split(w + tail) == [w] + Split(tail)
  {
    var s := w + tail;
    WordLengthOfWord(w, tail);
    assert s[..|w|] == w && s[|w|..] == tail;
  }

  lemma {:induction false} WordLengthOfWord(w: string, tail: string)
    requires forall i :: 0 <= i < |w| ==> !IsSpace(w[i])
    requires tail == [] || IsSpace(tail[0])
    ensures WordLength(w + tail) == |w|
  {
    if w != [] {
      assert (w + tail)[1..] == w[1..] + tail;
      WordLengthOfWord(w[1..], tail);
    }
  }

  // ---------------------------------------------------------------------------
  // split(sep) with a one-character separator
  // ---------------------------------------------------------------------------

  /** Position of the first `c` in `s`, or `|s|` when there is none. */
  function IndexOf(c: char, s: string): (k: nat)
    ensures k <= |s|
    ensures forall i :: 0 <= i < k ==> s[i] != c
    ensures k < |s| ==> s[k] == c
  {
    if s == [] || s[0] == c then 0 else 1 + IndexOf(c, s[1..])
  }

  /** Python's `s.split(c)`: the pieces between occurrences of `c`, never an empty list. */
  function SplitOn(c: char, s: string): (parts: seq<string>)
    ensures |parts| > 0
    decreases |s|
  {
    var k := IndexOf(c, s);
    if k == |s| then [s] else [s[..k]] + SplitOn(c, s[k + 1..])
  }

  /** Joining lines on a character they do not contain and splitting again gives the lines back. */
  lemma {:induction false} SplitOnJoin(c: char, lines: seq<string>)
    requires |lines| > 0
    requires forall i :: 0 <= i < |lines| ==> c !in lines[i]
    ensures SplitOn(c, Join([c], lines)) == lines
  {
    var first := lines[0];
    FirstIndex(c, first, if |lines| == 1 then [] else [c] + Join([c], lines[1..]));
    if |lines| > 1 {
      var rest := Join([c], lines[1..]);
      var s := first + [c] + rest;
      assert Join([c], lines) == s == first + ([c] + rest);
      assert s[..|first|] == first && s[|first| + 1..] == rest;
      SplitOnJoin(c, lines[1..]);
      assert lines == [first] + lines[1..];
    } else {
      assert Join([c], lines) == first + [];
    }
  }

  lemma {:induction false} FirstIndex(c: char, w: string, tail: string)
    requires c !in w
    requires tail == [] || tail[0] == c
    ensures IndexOf(c, w + tail) == |w|
  {
    if w != [] {
      assert w[0] in w;
      assert (w + tail)[1..] == w[1..] + tail;
      FirstIndex(c, w[1..], tail);
    } else {
      assert w + tail == tail;
    }
  }

  // ---------------------------------------------------------------------------
  // str() of an integer
  // ---------------------------------------------------------------------------

  function DigitChar(d: nat): (c: char)
    requires d < 10
  {
    "0123456789"[d]
  }

  predicate IsDigit(c: char) {
    '0' <= c <= '9'
  }

  /** Python's `str(n)` for a non-negative integer: decimal digits, no leading zero. */
  function NatToString(n: nat): (s: string)
    ensures |s| > 0 && forall i :: 0 <= i < |s| ==> IsDigit(s[i])
    ensures n < 10 <==> |s| == 1
  {
    if n < 10 then [DigitChar(n)] else NatToString(n / 10) + [DigitChar(n % 10)]
  }

  /** Python's `str(i)` for any integer: a minus sign before the digits of a negative number. */
  function IntToString(i: int): (s: string)
    ensures |s| > 0
    ensures i < 0 <==> s[0] == '-'
    ensures forall k :: 0 <= k < |s| ==> IsDigit(s[k]) || s[k] == '-'
  {
    if i < 0 then "-" + NatToString(-i) else NatToString(i)
  }

  /** Distinct numbers have distinct decimal renderings. */
  lemma {:induction false} NatToStringInjective(a: nat, b: nat)
    requires NatToString(a) == NatToString(b)
    ensures a == b
  {
    var sa, sb := NatToString(a), NatToString(b);
    if a >= 10 && b >= 10 {
      assert sa[..|sa| - 1] == NatToString(a / 10);
      assert sb[..|sb| - 1] == NatToString(b / 10);
      NatToStringInjective(a / 10, b / 10);
      assert DigitChar(a % 10) == sa[|sa| - 1] == sb[|sb| - 1] == DigitChar(b % 10);
    } else if a < 10 && b < 10 {
      assert DigitChar(a) == sa[0] == sb[0] == DigitChar(b);
    }
  }

  lemma IntToStringInjective(a: int, b: int)
    requires IntToString(a) == IntToString(b)
    ensures a == b
  {
    if a < 0 {
      assert IntToString(a)[1..] == NatToString(-a);
      assert IntToString(b)[1..] == NatToString(-b);
      NatToStringInjective(-a, -b);
    } else {
      NatToStringInjective(a, b);
    }
  }

  // ---------------------------------------------------------------------------
  // prefixes, suffixes, substrings, lower()
  // ---------------------------------------------------------------------------

  predicate StartsWith(s: string, prefix: string) {
    |prefix| <= |s| && s[..|prefix|] == prefix
  }

  predicate EndsWith(s: string, suffix: string) {
    |suffix| <= |s| && s[|s| - |suffix|..] == suffix
  }

  /** Python's `t in s` for strings. */
  ghost predicate IsSubstring(t: string, s: string) {
    exists k :: OccursAt(t, s, k)
  }

  /** `t` occurs in `s` starting at position `k`. */
  predicate OccursAt(t: string, s: string, k: int) {
    0 <= k <= |s| - |t| && s[k..k + |t|] == t
  }

  lemma SubstringOfConcat(a: string, t: string, b: string)
    ensures IsSubstring(t, a + t + b)
  {
    assert OccursAt(t, a + t + b, |a|);
  }

  lemma SubstringTransitive(t: string, u: string, s: string)
    requires IsSubstring(t, u) && IsSubstring(u, s)
    ensures IsSubstring(t, s)
  {
    var j :| OccursAt(t, u, j);
    var k :| OccursAt(u, s, k);
    forall i | 0 <= i < |t| ensures s[k + j + i] == t[i] {
      assert t[i] == u[j + i] == s[k..k + |u|][j + i];
    }
    assert s[k + j..k + j + |t|] == t;
    assert OccursAt(t, s, k + j);
  }

  /** Each joined part occurs in the joined text. */
  lemma {:induction false} PartInJoin(sep: string, parts: seq<string>, i: nat)
    requires i < |parts|
    ensures IsSubstring(parts[i], Join(sep, parts))
  {
    if |parts| == 1 {
      SubstringOfConcat("", parts[0], "");
      assert "" + parts[0] + "" == parts[0];
    } else if i == 0 {
      SubstringOfConcat("", parts[0], sep + Join(sep, parts[1..]));
      assert "" + parts[0] + (sep + Join(sep, parts[1..])) == Join(sep, parts);
    } else {
      PartInJoin(sep, parts[1..], i - 1);
      SubstringOfConcat(parts[0] + sep, Join(sep, parts[1..]), "");
      assert parts[0] + sep + Join(sep, parts[1..]) + "" == Join(sep, parts);
      SubstringTransitive(parts[i], Join(sep, parts[1..]), Join(sep, parts));
    }
  }

  function LowerChar(c: char): char {
    if 'A' <= c <= 'Z' then (c as int + 32) as char else c
  }

  /** Python's `s.lower()` on ASCII letters; other characters are kept. */
  function Lower(s: string): (r: string)
    ensures |r| == |s|
    ensures forall i :: 0 <= i < |s| ==> r[i] == LowerChar(s[i])
  {
    seq(|s|, i requires 0 <= i < |s| => LowerChar(s[i]))
  }
}
