/**
 * String helpers with the behaviour of the Python and JavaScript built-ins the
 * pipeline relies on: `str.strip`, `str.upper`/`str.lower`, `str.replace`,
 * `str.join`, `in` on strings and `str(int)`.
 * Strings are sequences of characters. Whitespace is Python's full
 * `str.isspace` set; case mapping covers ASCII letters only.
 */
module Text {

  /**
   * Whitespace as `str.strip()` and the regular-expression class `\s` see it:
   * the characters for which `str.isspace()` holds.
   */
  predicate IsSpace(c: char) {
    if c <= '\U{20}' then
      ('\U{9}' <= c <= '\U{D}') || '\U{1C}' <= c
    else if c < '\U{85}' then
      false
    else
      c == '\U{85}' || c == '\U{A0}' || c == '\U{1680}' ||
      ('\U{2000}' <= c <= '\U{200A}') || c == '\U{2028}' || c == '\U{2029}' ||
      c == '\U{202F}' || c == '\U{205F}' || c == '\U{3000}'
  }

  predicate AllSpace(s: string) {
    forall i :: 0 <= i < |s| ==> IsSpace(s[i])
  }

  /** Leading whitespace removed: a suffix of `s` that starts with a non-space. */
  function StripLeft(s: string): (r: string)
    ensures |r| <= |s| && r == s[|s| - |r|..]
    ensures r == [] || !IsSpace(r[0])
    decreases |s|
  {
    if |s| > 0 && IsSpace(s[0]) then StripLeft(s[1..]) else s
  }

  /** Trailing whitespace removed: a prefix of `s` that ends with a non-space. */
  function StripRight(s: string): (r: string)
    ensures |r| <= |s| && r == s[..|r|]
    ensures r == [] || !IsSpace(r[|r| - 1])
    decreases |s|
  {
    if |s| > 0 && IsSpace(s[|s| - 1]) then StripRight(s[..|s| - 1]) else s
  }

  /** Everything `StripLeft` removes is whitespace. */
  lemma {:induction false} StripLeftRemovesSpace(s: string)
    ensures forall i :: 0 <= i < |s| - |StripLeft(s)| ==> IsSpace(s[i])
    decreases |s|
  {
    if |s| > 0 && IsSpace(s[0]) {
      var t := s[1..];
      StripLeftRemovesSpace(t);
      assert StripLeft(s) == StripLeft(t);
      forall i | 0 <= i < |s| - |StripLeft(s)|
        ensures IsSpace(s[i])
      {
        if i > 0 {
          assert 0 <= i - 1 < |t| - |StripLeft(t)|;
          assert s[i] == t[i - 1];
        }
      }
    }
  }

  /** Everything `StripRight` removes is whitespace. */
  lemma {:induction false} StripRightRemovesSpace(s: string)
    ensures forall i :: |StripRight(s)| <= i < |s| ==> IsSpace(s[i])
    decreases |s|
  {
    if |s| > 0 && IsSpace(s[|s| - 1]) {
      StripRightRemovesSpace(s[..|s| - 1]);
    }
  }

  /** Python's `s.strip()`. */
  function Strip(s: string): string {
    StripRight(StripLeft(s))
  }

  /**
   * `s.strip()` is the piece of `s` left between its leading and its trailing
   * whitespace: empty exactly when `s` is all whitespace, and otherwise
   * starting and ending with a non-space.
   */
  lemma StripSpec(s: string)
    ensures Strip(s) == [] <==> AllSpace(s)
    ensures Strip(s) != [] ==> !IsSpace(Strip(s)[0]) && !IsSpace(Strip(s)[|Strip(s)| - 1])
    ensures var a := |s| - |StripLeft(s)|; a + |Strip(s)| <= |s| && Strip(s) == s[a..a + |Strip(s)|]
  {
    StripIsSlice(s);
    StripEnds(s);
    StripEmptyIffAllSpace(s);
  }

  lemma StripIsSlice(s: string)
    ensures var a := |s| - |StripLeft(s)|; a + |Strip(s)| <= |s| && Strip(s) == s[a..a + |Strip(s)|]
  {
    var left := StripLeft(s);
    var a := |s| - |left|;
    var r := Strip(s);
    assert left == s[a..];
    assert r == left[..|r|];
    forall k | 0 <= k < |r|
      ensures r[k] == s[a + k]
    {
      assert r[k] == left[k];
    }
  }

  lemma StripEnds(s: string)
    ensures Strip(s) != [] ==> !IsSpace(Strip(s)[0]) && !IsSpace(Strip(s)[|Strip(s)| - 1])
  {
    var left := StripLeft(s);
    var r := Strip(s);
    if r != [] {
      assert r == left[..|r|];
      assert r[0] == left[0];
    }
  }

  lemma StripEmptyIffAllSpace(s: string)
    ensures Strip(s) == [] <==> AllSpace(s)
  {
    var left := StripLeft(s);
    var a := |s| - |left|;
    StripLeftRemovesSpace(s);
    StripRightRemovesSpace(left);
    if Strip(s) == [] {
      assert left == [];
    } else {
      assert left != [] && s[a] == left[0];
    }
  }

  function UpperChar(c: char): char {
    if 'a' <= c <= 'z' then (c as int - 32) as char else c
  }

  function LowerChar(c: char): char {
    if 'A' <= c <= 'Z' then (c as int + 32) as char else c
  }

  /** Python's `s.upper()` (ASCII letters). */
  function Upper(s: string): (r: string)
    ensures |r| == |s|
  {
    seq(|s|, i requires 0 <= i < |s| => UpperChar(s[i]))
  }

  /** Python's `s.lower()` (ASCII letters). */
  function Lower(s: string): (r: string)
    ensures |r| == |s|
  {
    seq(|s|, i requires 0 <= i < |s| => LowerChar(s[i]))
  }

  /** `needle` occurs in `s` at position `i`. */
  predicate OccursAt(s: string, needle: string, i: int) {
    0 <= i && i + |needle| <= |s| && s[i..i + |needle|] == needle
  }

  /** Python's `needle in s` on strings. */
  predicate Occurs(s: string, needle: string) {
    exists i :: 0 <= i <= |s| - |needle| && OccursAt(s, needle, i)
  }

  /** A string built around `needle` contains it. */
  lemma OccursInMiddle(p: string, needle: string, q: string)
    ensures OccursAt(p + needle + q, needle, |p|) && Occurs(p + needle + q, needle)
  {
    var s := p + needle + q;
    assert s[|p|..|p| + |needle|] == needle;
    assert 0 <= |p| <= |s| - |needle| && OccursAt(s, needle, |p|);
  }

  /** Python's `s.replace(pat, rep)`: every occurrence, left to right, not overlapping. */
  function ReplaceAll(s: string, pat: string, rep: string): string
    requires |pat| > 0
    decreases |s|
  {
    if |s| < |pat| then s
    else if s[..|pat|] == pat then rep + ReplaceAll(s[|pat|..], pat, rep)
    else [s[0]] + ReplaceAll(s[1..], pat, rep)
  }

  /** The number of occurrences `ReplaceAll` replaces. */
  function CountOccurrences(s: string, pat: string): nat
    requires |pat| > 0
    decreases |s|
  {
    if |s| < |pat| then 0
    else if s[..|pat|] == pat then 1 + CountOccurrences(s[|pat|..], pat)
    else CountOccurrences(s[1..], pat)
  }

  /** A string without the pattern is left as it is. */
  lemma {:induction false} ReplaceAbsent(s: string, pat: string, rep: string)
    requires |pat| > 0 && !Occurs(s, pat)
    ensures ReplaceAll(s, pat, rep) == s
    decreases |s|
  {
    if |s| >= |pat| {
      assert !OccursAt(s, pat, 0);
      assert s[..|pat|] != pat;
      if Occurs(s[1..], pat) {
        var i :| 0 <= i <= |s| - 1 - |pat| && OccursAt(s[1..], pat, i);
        assert s[1..][i..i + |pat|] == s[i + 1..i + 1 + |pat|];
        assert OccursAt(s, pat, i + 1);
        assert false;
      }
      ReplaceAbsent(s[1..], pat, rep);
    }
  }

  /** Replacing a pattern by itself changes nothing. */
  lemma {:induction false} ReplaceBySelf(s: string, pat: string)
    requires |pat| > 0
    ensures ReplaceAll(s, pat, pat) == s
    decreases |s|
  {
    if |s| >= |pat| {
      if s[..|pat|] == pat {
        ReplaceBySelf(s[|pat|..], pat);
        assert s == s[..|pat|] + s[|pat|..];
      } else {
        ReplaceBySelf(s[1..], pat);
        assert s == [s[0]] + s[1..];
      }
    }
  }

  /** Each replaced occurrence changes the length by `|rep| - |pat|`. */
  lemma {:induction false} ReplaceLength(s: string, pat: string, rep: string)
    requires |pat| > 0
    ensures |ReplaceAll(s, pat, rep)| == |s| + CountOccurrences(s, pat) * (|rep| - |pat|)
    decreases |s|
  {
    if |s| >= |pat| {
      if s[..|pat|] == pat {
        var t := s[|pat|..];
        ReplaceLength(t, pat, rep);
        MulSucc(CountOccurrences(t, pat), |rep| - |pat|);
      } else {
        ReplaceLength(s[1..], pat, rep);
      }
    }
  }

  lemma MulSucc(c: nat, d: int)
    ensures (1 + c) * d == c * d + d
  {
  }

  /** A one-character replacement is a character-by-character map that keeps the length. */
  lemma {:induction false} ReplaceChar(s: string, a: char, b: char)
    ensures |ReplaceAll(s, [a], [b])| == |s|
    ensures forall i :: 0 <= i < |s| ==>
      ReplaceAll(s, [a], [b])[i] == (if s[i] == a then b else s[i])
    decreases |s|
  {
    if |s| > 0 {
      ReplaceChar(s[1..], a, b);
      var tail := ReplaceAll(s[1..], [a], [b]);
      var r := ReplaceAll(s, [a], [b]);
      assert r == [if s[0] == a then b else s[0]] + tail;
      forall i | 0 <= i < |s|
        ensures r[i] == (if s[i] == a then b else s[i])
      {
        if i > 0 {
          assert r[i] == tail[i - 1];
          assert s[1..][i - 1] == s[i];
        }
      }
    }
  }

  /** Python's `sep.join(parts)`. */
  function Join(sep: string, parts: seq<string>): string
    decreases |parts|
  {
    if |parts| == 0 then ""
    else if |parts| == 1 then parts[0]
    else parts[0] + sep + Join(sep, parts[1..])
  }

  /** Separators appear exactly between parts: `|parts| - 1` of them, plus those inside parts. */
  lemma {:induction false} JoinCount(sep: char, parts: seq<string>)
    requires |parts| > 0
    ensures multiset(Join([sep], parts))[sep] ==
      |parts| - 1 + SumCount(parts, sep)
    decreases |parts|
  {
    if |parts| > 1 {
      JoinCount(sep, parts[1..]);
      var rest := Join([sep], parts[1..]);
      assert Join([sep], parts) == parts[0] + [sep] + rest;
      assert multiset(parts[0] + [sep] + rest) == multiset(parts[0]) + multiset([sep]) + multiset(rest);
    }
  }

  /** Occurrences of `c` in all of `parts`. */
  function SumCount(parts: seq<string>, c: char): nat
    decreases |parts|
  {
    if parts == [] then 0 else multiset(parts[0])[c] + SumCount(parts[1..], c)
  }

  function DigitChar(d: nat): char
    requires d < 10
  {
    "0123456789"[d]
  }

  predicate IsDigit(c: char) {
    '0' <= c <= '9'
  }

  /** Decimal digits of a natural number, most significant first, no leading zero. */
  function Digits(n: nat): (r: string)
    ensures |r| > 0 && forall i :: 0 <= i < |r| ==> IsDigit(r[i])
    ensures n > 0 ==> r[0] != '0'
    decreases n
  {
    if n < 10 then [DigitChar(n)] else Digits(n / 10) + [DigitChar(n % 10)]
  }

  /** Python's `str(n)` for an integer. */
  function IntToString(n: int): (r: string)
    ensures forall i :: 0 <= i < |r| ==> r[i] == '-' || IsDigit(r[i])
  {
    if n < 0 then "-" + Digits(-n) else Digits(n)
  }

  /** The value a string of decimal digits denotes. */
  function DecimalValue(s: string): nat
    requires forall i :: 0 <= i < |s| ==> IsDigit(s[i])
    decreases |s|
  {
    if s == [] then 0
    else
      var d := s[|s| - 1] as int - '0' as int;
      assert IsDigit(s[|s| - 1]);
      DecimalValue(s[..|s| - 1]) * 10 + d
  }

  /** `Digits` can be read back: it is an exact decimal rendering. */
  lemma {:induction false} DigitsRoundTrip(n: nat)
    ensures DecimalValue(Digits(n)) == n
    decreases n
  {
    if n >= 10 {
      DigitsRoundTrip(n / 10);
      var s := Digits(n / 10) + [DigitChar(n % 10)];
      assert s[..|s| - 1] == Digits(n / 10);
    }
  }
}
