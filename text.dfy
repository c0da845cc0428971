/**
 * The string operations the pipeline applies to column names and log lines:
 * Python's `str.strip()`, `str.lower()` (restricted to ASCII) and the decimal
 * rendering of a row count inside an f-string.
 */
module Text {

  /** Python's `str.isspace()` for a single code point. */
  predicate IsSpace(c: char) {
    || c == ' '
    || ('\t' <= c <= '\r')
    || ('\U{1c}' <= c <= '\U{1f}')
    || c == '\U{85}' || c == '\U{a0}' || c == '\U{1680}'
    || ('\U{2000}' <= c <= '\U{200a}')
    || c == '\U{2028}' || c == '\U{2029}' || c == '\U{202f}' || c == '\U{205f}' || c == '\U{3000}'
  }

  /** Neither end of `s` is whitespace. */
  predicate Trimmed(s: string) {
    s == [] || (!IsSpace(s[0]) && !IsSpace(s[|s| - 1]))
  }

  predicate AllSpace(s: string) {
    forall i :: 0 <= i < |s| ==> IsSpace(s[i])
  }

  /** `str.lstrip()`: drops the whitespace prefix and nothing else. */
  function TrimStart(s: string): (r: string)
    ensures |r| <= |s| && r == s[|s| - |r|..]
    ensures r == [] || !IsSpace(r[0])
    ensures AllSpace(s[..|s| - |r|])
  {
    if s != [] && IsSpace(s[0]) then
      var r := TrimStart(s[1..]);
      var dropped := s[1..][..|s| - 1 - |r|];
      assert AllSpace(dropped);
      assert s[..|s| - |r|] == [s[0]] + dropped;
      assert s[1..][|s| - 1 - |r|..] == s[|s| - |r|..];
      r
    else s
  }

  /** `str.rstrip()`: drops the whitespace suffix and nothing else. */
  function TrimEnd(s: string): (r: string)
    ensures |r| <= |s| && r == s[..|r|]
    ensures r == [] || !IsSpace(r[|r| - 1])
    ensures AllSpace(s[|r|..])
  {
    if s != [] && IsSpace(s[|s| - 1]) then
      var r := TrimEnd(s[..|s| - 1]);
      var dropped := s[..|s| - 1][|r|..];
      assert AllSpace(dropped);
      assert s[|r|..] == dropped + [s[|s| - 1]];
      r
    else s
  }

  /** `str.strip()` */
  function Strip(s: string): (r: string)
    ensures |r| <= |s|
    ensures Trimmed(r)
  {
    TrimEnd(TrimStart(s))
  }

  /** Stripping leaves a string alone exactly when neither end is whitespace. */
  lemma StripUnchangedIffTrimmed(s: string)
    ensures Strip(s) == s <==> Trimmed(s)
  {
    if Trimmed(s) && s != [] {
      assert TrimStart(s) == s;
      assert TrimEnd(s) == s;
    }
  }

  /** Whitespace padding around a trimmed name is exactly what `Strip` removes. */
  lemma StripRemovesPadding(front: string, s: string, back: string)
    requires AllSpace(front) && AllSpace(back) && Trimmed(s)
    ensures Strip(front + s + back) == s
  {
    if s == [] {
      assert front + s + back == front + back;
      assert AllSpace(front + back);
      TrimStartOfSpaces(front + back);
    } else {
      assert front + s + back == front + (s + back);
      TrimStartOfPadded(front, s + back);
      TrimEndOfPadded(s, back);
    }
  }

  lemma {:induction false} TrimStartOfSpaces(s: string)
    requires AllSpace(s)
    ensures TrimStart(s) == []
  {
    if s != [] {
      TrimStartOfSpaces(s[1..]);
    }
  }

  lemma {:induction false} TrimStartOfPadded(front: string, rest: string)
    requires AllSpace(front) && rest != [] && !IsSpace(rest[0])
    ensures TrimStart(front + rest) == rest
  {
    if front != [] {
      assert (front + rest)[1..] == front[1..] + rest;
      TrimStartOfPadded(front[1..], rest);
    }
  }

  lemma TrimEndOfPadded(s: string, back: string)
    requires AllSpace(back) && s != [] && !IsSpace(s[|s| - 1])
    ensures TrimEnd(s + back) == s
  {
    var r := TrimEnd(s + back);
    assert (s + back)[|s| - 1] == s[|s| - 1];
    assert |r| >= |s|;
    assert |r| <= |s|;
    assert r == (s + back)[..|s|] == s;
  }

  lemma StripIdempotent(s: string)
    ensures Strip(Strip(s)) == Strip(s)
  {
    StripUnchangedIffTrimmed(Strip(s));
  }

  /** Python's `str.lower()` on one code point, restricted to ASCII letters. */
  function LowerChar(c: char): char {
    if 'A' <= c <= 'Z' then (c as int + 32) as char else c
  }

  predicate NoUpper(s: string) {
    forall i :: 0 <= i < |s| ==> !('A' <= s[i] <= 'Z')
  }

  /** `str.lower()` (ASCII letters only). */
  function Lower(s: string): (r: string)
    ensures |r| == |s|
    ensures NoUpper(r)
  {
    seq(|s|, i requires 0 <= i < |s| => LowerChar(s[i]))
  }

  /** Lower-casing changes a string exactly when it holds an upper-case letter. */
  lemma LowerUnchangedIffNoUpper(s: string)
    ensures Lower(s) == s <==> NoUpper(s)
  {
    if NoUpper(s) {
      assert forall i :: 0 <= i < |s| ==> Lower(s)[i] == s[i];
    }
  }

  /** Lower-casing neither adds nor removes whitespace at the ends. */
  lemma LowerKeepsTrimmed(s: string)
    requires Trimmed(s)
    ensures Trimmed(Lower(s))
  {
  }

  function DigitChar(d: nat): (c: char)
    requires d < 10
    ensures '0' <= c <= '9'
  {
    ('0' as int + d) as char
  }

  /** The value of one decimal digit, as Python's `int()` reads it. */
  function DigitValue(c: char): nat {
    if '0' <= c <= '9' then c as int - '0' as int else 0
  }

  /** The number a string of decimal digits denotes, as Python's `int()` reads it. */
  function DecimalValue(s: string): nat {
    if s == [] then 0 else DecimalValue(s[..|s| - 1]) * 10 + DigitValue(s[|s| - 1])
  }

  /** The decimal rendering Python's f-string gives a non-negative `int`. */
  function NatToString(n: nat): (r: string)
    ensures |r| >= 1
    ensures forall i :: 0 <= i < |r| ==> '0' <= r[i] <= '9'
    ensures n >= 10 ==> r[0] != '0'
  {
    if n < 10 then [DigitChar(n)] else NatToString(n / 10) + [DigitChar(n % 10)]
  }

  /** The rendering denotes the number it renders: `int(str(n)) == n`. */
  lemma {:induction false} NatToStringValue(n: nat)
    ensures DecimalValue(NatToString(n)) == n
  {
    var s := NatToString(n);
    if n < 10 {
      assert s[..0] == [];
    } else {
      NatToStringValue(n / 10);
      assert s[..|s| - 1] == NatToString(n / 10);
    }
  }

  /** Different numbers are rendered differently. */
  lemma NatToStringInjective(m: nat, n: nat)
    requires NatToString(m) == NatToString(n)
    ensures m == n
  {
    NatToStringValue(m);
    NatToStringValue(n);
  }
}
