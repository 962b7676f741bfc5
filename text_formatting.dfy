/** Stand-ins for the two pieces of Foundation the request builder relies on: trimming whitespace
    and newlines from both ends of a string, and the decimal text of an integer (`"\(page)"`). */
module TextFormatting {
  import opened Wrappers

  /** The whitespace-and-newline characters trimmed from a filter (the ASCII ones). */
  predicate IsWhitespace(c: char)
  {
    c == ' ' || c == '\t' || c == '\n' || c == '\r' || c == '\U{000B}' || c == '\U{000C}'
  }

  /** The first position at or after `i` that does not hold whitespace (`|s|` when there is none). */
  function SkipLeading(s: string, i: nat): (k: nat)
    requires i <= |s|
    ensures i <= k <= |s|
    ensures forall j :: i <= j < k ==> IsWhitespace(s[j])
    ensures k == |s| || !IsWhitespace(s[k])
    decreases |s| - i
  {
    if i < |s| && IsWhitespace(s[i]) then SkipLeading(s, i + 1) else i
  }

  /** The end of `s[lo..hi]` once its trailing whitespace is cut off. */
  function SkipTrailing(s: string, lo: nat, hi: nat): (e: nat)
    requires lo <= hi <= |s|
    ensures lo <= e <= hi
    ensures forall j :: e <= j < hi ==> IsWhitespace(s[j])
    ensures e == lo || !IsWhitespace(s[e - 1])
    decreases hi
  {
    if lo < hi && IsWhitespace(s[hi - 1]) then SkipTrailing(s, lo, hi - 1) else hi
  }

  /** `s` without whitespace at either end: the contiguous middle part of `s` that starts and ends
      with a non-whitespace character, everything outside it being whitespace. */
  function Trim(s: string): (r: string)
    ensures var k := SkipLeading(s, 0);
      && k + |r| <= |s|
      && r == s[k..k + |r|]
      && (forall i :: 0 <= i < k ==> IsWhitespace(s[i]))
      && (forall i :: k + |r| <= i < |s| ==> IsWhitespace(s[i]))
    ensures r == [] || (!IsWhitespace(r[0]) && !IsWhitespace(r[|r| - 1]))
  {
    var k := SkipLeading(s, 0);
    s[k..SkipTrailing(s, k, |s|)]
  }

  /** A string trims to nothing exactly when it consists of whitespace only. */
  lemma TrimEmptyIffBlank(s: string)
    ensures Trim(s) == [] <==> forall i :: 0 <= i < |s| ==> IsWhitespace(s[i])
  {
    if Trim(s) != [] {
      var k := SkipLeading(s, 0);
      assert s[k] == Trim(s)[0];
    }
  }

  /** Trimming twice is trimming once. */
  lemma TrimIdempotent(s: string)
    ensures Trim(Trim(s)) == Trim(s)
  {
    var r := Trim(s);
    if r != [] {
      assert SkipLeading(r, 0) == 0;
      assert SkipTrailing(r, 0, |r|) == |r|;
      assert r[0..|r|] == r;
    }
  }

  function DigitChar(d: nat): (c: char)
    requires d < 10
    ensures '0' <= c <= '9' && c as int - '0' as int == d
  {
    ('0' as int + d) as char
  }

  predicate IsDigits(s: string)
  {
    forall i :: 0 <= i < |s| ==> '0' <= s[i] <= '9'
  }

  /** The decimal text of a natural number, most significant digit first, without leading zeros. */
  function NatToDecimal(n: nat): (r: string)
    ensures |r| >= 1 && IsDigits(r)
    ensures |r| > 1 ==> r[0] != '0'
    decreases n
  {
    if n < 10 then [DigitChar(n)] else NatToDecimal(n / 10) + [DigitChar(n % 10)]
  }

  /** The decimal text of an integer, as string interpolation writes it: a minus sign for negatives. */
  function IntToDecimal(n: int): (r: string)
    ensures |r| >= 1
    ensures n < 0 <==> r[0] == '-'
  {
    if n < 0 then "-" + NatToDecimal(-n) else NatToDecimal(n)
  }

  /** The value of a string of decimal digits. */
  function DigitsValue(s: string): nat
    requires IsDigits(s)
  {
    if s == [] then 0 else DigitsValue(s[..|s| - 1]) * 10 + (s[|s| - 1] as int - '0' as int)
  }

  /** Reads back the text produced by `IntToDecimal`; fails on anything else that is not an
      optional minus sign followed by digits. */
  function ParseInt(s: string): Option<int>
  {
    if |s| >= 2 && s[0] == '-' && IsDigits(s[1..]) then Some(0 - DigitsValue(s[1..]))
    else if |s| >= 1 && IsDigits(s) then Some(DigitsValue(s))
    else None
  }

  lemma {:induction false} NatDecimalRoundTrip(n: nat)
    ensures DigitsValue(NatToDecimal(n)) == n
    decreases n
  {
    if n >= 10 {
      var r := NatToDecimal(n);
      assert r[..|r| - 1] == NatToDecimal(n / 10);
      NatDecimalRoundTrip(n / 10);
    }
  }

  /** The decimal text of every integer reads back as that integer, so distinct page numbers give
      distinct texts. */
  lemma IntDecimalRoundTrip(n: int)
    ensures ParseInt(IntToDecimal(n)) == Some(n)
  {
    if n < 0 {
      NegativeDecimalRoundTrip(-n);
    } else {
      var d := NatToDecimal(n);
      assert d[0] != '-';
      NatDecimalRoundTrip(n);
    }
  }

  lemma NegativeDecimalRoundTrip(m: nat)
    ensures ParseInt("-" + NatToDecimal(m)) == Some(-(m as int))
  {
    var d := NatToDecimal(m);
    var r := "-" + d;
    assert r[1..] == d;
    NatDecimalRoundTrip(m);
  }
}
