/**
 * The string operations the source applies through Python's str methods:
 * upper(), lower(), strip(), rstrip(';'), startswith and the `in` substring test.
 * Case mapping covers ASCII letters only; whitespace is the set Python's
 * str.strip() removes by default.
 */
module Strings {

  /** Characters for which Python's str.isspace() holds (the default set of str.strip()). */
  predicate IsSpace(c: char) {
    || ('\t' <= c <= '\r')
    || ('\U{1C}' <= c <= '\U{1F}')
    || c == ' ' || c == '\U{85}' || c == '\U{A0}' || c == '\U{1680}'
    || ('\U{2000}' <= c <= '\U{200A}')
    || c == '\U{2028}' || c == '\U{2029}' || c == '\U{202F}' || c == '\U{205F}' || c == '\U{3000}'
  }

  function UpperChar(c: char): char {
    if 'a' <= c <= 'z' then (c as int - 32) as char else c
  }

  function LowerChar(c: char): char {
    if 'A' <= c <= 'Z' then (c as int + 32) as char else c
  }

  /** str.upper(), restricted to ASCII letters. */
  function Upper(s: string): (r: string)
    ensures |r| == |s|
    ensures forall i :: 0 <= i < |s| ==> r[i] == UpperChar(s[i])
  {
    seq(|s|, i requires 0 <= i < |s| => UpperChar(s[i]))
  }

  /** str.lower(), restricted to ASCII letters. */
  function Lower(s: string): (r: string)
    ensures |r| == |s|
    ensures forall i :: 0 <= i < |s| ==> r[i] == LowerChar(s[i])
  {
    seq(|s|, i requires 0 <= i < |s| => LowerChar(s[i]))
  }

  /** `w in s` for strings: w occurs in s starting at index i. */
  predicate OccursAt(s: string, w: string, i: int) {
    0 <= i <= |s| - |w| && s[i..i + |w|] == w
  }

  /** Python's substring test `w in s`. */
  predicate Contains(s: string, w: string) {
    exists i :: 0 <= i <= |s| - |w| && OccursAt(s, w, i)
  }

  /** str.startswith(p). */
  predicate StartsWith(s: string, p: string) {
    |p| <= |s| && s[..|p|] == p
  }

  /**
   * str.lstrip(). Its shape (a suffix of s after whitespace only) is stated by
   * LStripShape rather than as a postcondition, which keeps failing goals that
   * mention it cheap for the solver.
   */
  function LStrip(s: string): string {
    if |s| > 0 && IsSpace(s[0]) then LStrip(s[1..]) else s
  }

  /** str.rstrip(); its shape is stated by RStripShape. */
  function RStrip(s: string): string {
    if |s| > 0 && IsSpace(s[|s| - 1]) then RStrip(s[..|s| - 1]) else s
  }

  /** lstrip() removes the longest whitespace prefix: the result is a suffix starting with a non-space. */
  lemma {:induction false} LStripShape(s: string)
    ensures var r := LStrip(s);
      && |r| <= |s| && r == s[|s| - |r|..]
      && (forall k :: 0 <= k < |s| - |r| ==> IsSpace(s[k]))
      && (r == [] || !IsSpace(r[0]))
  {
    if |s| > 0 && IsSpace(s[0]) {
      LStripShape(s[1..]);
    }
  }

  /** rstrip() removes the longest whitespace suffix: the result is a prefix ending in a non-space. */
  lemma {:induction false} RStripShape(s: string)
    ensures var r := RStrip(s);
      && r <= s
      && (forall k :: |r| <= k < |s| ==> IsSpace(s[k]))
      && (r == [] || !IsSpace(r[|r| - 1]))
  {
    if |s| > 0 && IsSpace(s[|s| - 1]) {
      RStripShape(s[..|s| - 1]);
    }
  }

  /** str.strip() */
  function Strip(s: string): string {
    LStrip(RStrip(s))
  }

  /** str.rstrip(c) for a single character c: drop every trailing c. Its shape is stated by RStripCharShape. */
  function RStripChar(s: string, c: char): string {
    if |s| > 0 && s[|s| - 1] == c then RStripChar(s[..|s| - 1], c) else s
  }

  /** rstrip(c) removes exactly the trailing run of c. */
  lemma {:induction false} RStripCharShape(s: string, c: char)
    ensures var r := RStripChar(s, c);
      && r <= s
      && (forall k :: |r| <= k < |s| ==> s[k] == c)
      && (r == [] || r[|r| - 1] != c)
  {
    if |s| > 0 && s[|s| - 1] == c {
      RStripCharShape(s[..|s| - 1], c);
    }
  }

  function DigitChar(d: nat): char
    requires d < 10
  {
    "0123456789"[d]
  }

  /** str(n) for a natural number: its decimal digits, most significant first. */
  function Decimal(n: nat): (r: string)
    ensures |r| > 0
    ensures forall i :: 0 <= i < |r| ==> '0' <= r[i] <= '9'
  {
    if n < 10 then [DigitChar(n)] else Decimal(n / 10) + [DigitChar(n % 10)]
  }

  /** Every character of w is an ASCII capital letter (the blocked keywords are such words). */
  predicate IsCapitalWord(w: string) {
    |w| > 0 && forall j :: 0 <= j < |w| ==> 'A' <= w[j] <= 'Z'
  }

  /** A word containing a character that s lacks does not occur in s. */
  lemma AbsentChar(s: string, w: string, c: char)
    requires c in w && c !in s
    ensures !Contains(s, w)
  {
    var k :| 0 <= k < |w| && w[k] == c;
    forall i | 0 <= i <= |s| - |w|
      ensures !OccursAt(s, w, i)
    {
      assert s[i..i + |w|][k] == s[i + k];
    }
  }

  /** Upper-casing keeps a capital letter out when neither case of it occurs. */
  lemma UpperAbsent(s: string, c: char)
    requires 'A' <= c <= 'Z' && c !in s && LowerChar(c) !in s
    ensures c !in Upper(s)
  {
    forall i | 0 <= i < |s|
      ensures Upper(s)[i] != c
    {
      assert s[i] != c && s[i] != LowerChar(c);
    }
  }

  /** Lower-casing keeps a small letter out when neither case of it occurs. */
  lemma LowerAbsent(s: string, c: char)
    requires 'a' <= c <= 'z' && c !in s && UpperChar(c) !in s
    ensures c !in Lower(s)
  {
    forall i | 0 <= i < |s|
      ensures Lower(s)[i] != c
    {
      assert s[i] != c && s[i] != UpperChar(c);
    }
  }

  lemma UpperConcat(a: string, b: string)
    ensures Upper(a + b) == Upper(a) + Upper(b)
  {
    assert forall i :: 0 <= i < |a + b| ==> Upper(a + b)[i] == (Upper(a) + Upper(b))[i];
  }

  lemma UpperPrefix(s: string, p: string)
    requires p <= s
    ensures Upper(p) == Upper(s)[..|p|]
  {
  }

  /** str.strip() keeps one contiguous slice s[a..b]; everything outside it is whitespace. */
  lemma StripBounds(s: string) returns (a: nat, b: nat)
    ensures a <= b <= |s| && Strip(s) == s[a..b]
    ensures forall k :: 0 <= k < a ==> IsSpace(s[k])
    ensures forall k :: b <= k < |s| ==> IsSpace(s[k])
    ensures a < b ==> !IsSpace(s[a]) && !IsSpace(s[b - 1])
  {
    var r := RStrip(s);
    RStripShape(s);
    b := |r|;
    var l := LStrip(r);
    LStripShape(r);
    a := |r| - |l|;
    assert r == s[..b];
  }

  /** strip() only removes characters. */
  lemma StripAbsent(s: string, c: char)
    requires c !in s
    ensures c !in Strip(s)
  {
    var a, b := StripBounds(s);
    assert forall k :: 0 <= k < b - a ==> s[a..b][k] == s[a + k];
  }

  /** lstrip() of a string whose first a characters are whitespace and whose next one is not. */
  lemma LStripAt(s: string, a: nat)
    requires a < |s| && !IsSpace(s[a])
    requires forall k :: 0 <= k < a ==> IsSpace(s[k])
    ensures LStrip(s) == s[a..]
  {
    var r := LStrip(s);
    LStripShape(s);
    var m := |s| - |r|;
    assert r == s[m..];
    assert |r| > 0 ==> r[0] == s[m];
    assert m == a;
  }

  /** rstrip() leaves a string alone when its last character is not whitespace. */
  lemma RStripKeeps(s: string)
    requires |s| > 0 && !IsSpace(s[|s| - 1])
    ensures RStrip(s) == s
  {
  }

  /** A word without whitespace occurs in s exactly when it occurs in s without its whitespace margins. */
  lemma ContainsWithinSpaces(s: string, a: nat, b: nat, w: string)
    requires a <= b <= |s| && |w| > 0
    requires forall k :: 0 <= k < |w| ==> !IsSpace(w[k])
    requires forall k :: 0 <= k < a ==> IsSpace(s[k])
    requires forall k :: b <= k < |s| ==> IsSpace(s[k])
    ensures Contains(s, w) <==> Contains(s[a..b], w)
  {
    if Contains(s, w) {
      var i :| 0 <= i <= |s| - |w| && OccursAt(s, w, i);
      assert s[i] == w[0] && s[i + |w| - 1] == w[|w| - 1];
      assert a <= i && i + |w| <= b;
      var inner, outer := s[a..b][i - a..i - a + |w|], s[i..i + |w|];
      forall k | 0 <= k < |w| ensures inner[k] == outer[k] { }
      assert inner == outer;
      assert OccursAt(s[a..b], w, i - a);
    }
    if Contains(s[a..b], w) {
      var i :| 0 <= i <= (b - a) - |w| && OccursAt(s[a..b], w, i);
      var inner, outer := s[a..b][i..i + |w|], s[i + a..i + a + |w|];
      forall k | 0 <= k < |w| ensures inner[k] == outer[k] { }
      assert inner == outer;
      assert OccursAt(s, w, i + a);
    }
  }

  /** A word without whitespace that occurs in x + t, where t starts with whitespace, lies in x or in t. */
  lemma ContainsConcat(x: string, t: string, w: string)
    requires |w| > 0 && forall k :: 0 <= k < |w| ==> !IsSpace(w[k])
    requires |t| > 0 && IsSpace(t[0])
    requires Contains(x + t, w)
    ensures Contains(x, w) || Contains(t, w)
  {
    var s := x + t;
    var i :| 0 <= i <= |s| - |w| && OccursAt(s, w, i);
    forall p | i <= p < i + |w|
      ensures !IsSpace(s[p])
    {
      assert s[p] == s[i..i + |w|][p - i] == w[p - i];
    }
    assert IsSpace(s[|x|]);
    assert i + |w| <= |x| || i >= |x|;
    if i + |w| <= |x| {
      assert s[i..i + |w|] == x[i..i + |w|];
      assert OccursAt(x, w, i);
    } else {
      assert s[i..i + |w|] == t[i - |x|..i - |x| + |w|];
      assert OccursAt(t, w, i - |x|);
    }
  }

  lemma ContainsPrefix(s: string, p: string, w: string)
    requires p <= s && Contains(p, w)
    ensures Contains(s, w)
  {
    var i :| 0 <= i <= |p| - |w| && OccursAt(p, w, i);
    assert OccursAt(s, w, i);
  }
}
