/**
 * Decimal integer text as Go's `strconv` package reads and writes it:
 * `ParseInt(s, 10, bitSize)` and `Atoi` on the reading side, `Itoa` on
 * the writing side.  The service uses the first for `MIN_QR_SIZE`-style
 * environment variables and the `size` query parameter, and the second
 * for the bounds quoted in its "invalid size" message.
 */
module Decimal {
  import opened Wrappers

  /** Width of Go's `int` on the 64-bit platforms the service targets. */
  const IntSize: nat := 64

  predicate IsDigit(c: char) {
    '0' <= c <= '9'
  }

  predicate AllDigits(s: string) {
    forall i :: 0 <= i < |s| ==> IsDigit(s[i])
  }

  function DigitValue(c: char): (d: nat)
    requires IsDigit(c)
    ensures d < 10
  {
    (c as int) - ('0' as int)
  }

  function DigitChar(d: nat): (c: char)
    requires d < 10
    ensures IsDigit(c) && DigitValue(c) == d
  {
    (('0' as int) + d) as char
  }

  /** The number a run of decimal digits denotes, most significant digit first. */
  function DigitsValue(s: string): nat
    requires AllDigits(s)
  {
    if |s| == 0 then 0 else DigitsValue(s[..|s| - 1]) * 10 + DigitValue(s[|s| - 1])
  }

  /** `2^n`; at least 1, so 0 lies in every signed range. */
  function Pow2(n: nat): (p: nat)
    ensures p >= 1
  {
    if n == 0 then 1 else 2 * Pow2(n - 1)
  }

  /** Whether `n` fits a signed two's-complement integer of `bitSize` bits. */
  predicate InRange(n: int, bitSize: nat)
    requires 1 <= bitSize
  {
    -(Pow2(bitSize - 1) as int) <= n < Pow2(bitSize - 1)
  }

  /**
   * `strconv.ParseInt(s, 10, bitSize)`: an optional `+` or `-`, then one or
   * more ASCII digits and nothing else (no spaces, no underscores in base
   * 10).  A value outside the signed `bitSize`-bit range is an error too.
   */
  function ParseInt(s: string, bitSize: nat): (r: Option<int>)
    requires 1 <= bitSize <= 64
    ensures r.Some? ==> InRange(r.value, bitSize)
    ensures r.Some? ==> |s| > 0 && |Unsigned(s)| > 0 && AllDigits(Unsigned(s))
    ensures r.Some? && s[0] == '-' ==> r.value <= 0
    ensures r.Some? && s[0] != '-' ==> r.value >= 0
  {
    if |s| == 0 then None
    else
      var digits := Unsigned(s);
      if |digits| == 0 || !AllDigits(digits) then None
      else
        var n := if s[0] == '-' then -(DigitsValue(digits) as int) else DigitsValue(digits);
        if InRange(n, bitSize) then Some(n) else None
  }

  /** `s` without its leading `+` or `-`, if it has one. */
  function Unsigned(s: string): string {
    if |s| > 0 && (s[0] == '-' || s[0] == '+') then s[1..] else s
  }

  /** `strconv.Atoi`: `ParseInt` at the width of Go's `int`. */
  function Atoi(s: string): (r: Option<int>)
    ensures r.Some? ==> InRange(r.value, IntSize)
  {
    ParseInt(s, IntSize)
  }

  /** The shortest digit string for `n`: no leading zero except for `0` itself. */
  function NatDigits(n: nat): (s: string)
    ensures |s| > 0 && AllDigits(s)
    ensures |s| == 1 || s[0] != '0'
  {
    if n < 10 then [DigitChar(n)] else NatDigits(n / 10) + [DigitChar(n % 10)]
  }

  /** `strconv.Itoa`: a `-` for negatives, then the shortest digit string. */
  function FormatInt(n: int): (s: string)
    ensures |s| > 0
    ensures forall i :: 0 <= i < |s| ==> s[i] == '-' || IsDigit(s[i])
  {
    if n < 0 then "-" + NatDigits(-n) else NatDigits(n)
  }

  /** The text `Itoa` produces: the shape `ParseInt` can read back unchanged. */
  predicate IsCanonical(s: string) {
    var digits := if |s| > 0 && s[0] == '-' then s[1..] else s;
    && |digits| > 0
    && AllDigits(digits)
    && (|digits| == 1 || digits[0] != '0')
    && (s[0] == '-' ==> digits != "0")
  }

  lemma {:induction false} DigitsRoundTrip(n: nat)
    ensures DigitsValue(NatDigits(n)) == n
  {
    if n >= 10 {
      var s := NatDigits(n);
      assert s[..|s| - 1] == NatDigits(n / 10);
      DigitsRoundTrip(n / 10);
    }
  }

  lemma {:induction false} LeadingDigitBound(s: string)
    requires |s| > 0 && AllDigits(s) && s[0] != '0'
    ensures DigitsValue(s) >= 1
  {
    if |s| > 1 {
      var p := s[..|s| - 1];
      assert p[0] == s[0];
      LeadingDigitBound(p);
    }
  }

  lemma {:induction false} DigitsCanonical(s: string)
    requires |s| > 0 && AllDigits(s) && (|s| == 1 || s[0] != '0')
    ensures NatDigits(DigitsValue(s)) == s
  {
    var p := s[..|s| - 1];
    var d := DigitValue(s[|s| - 1]);
    if |s| == 1 {
      assert DigitChar(d) == s[0];
    } else {
      assert p[0] == s[0];
      DigitsCanonical(p);
      LeadingDigitBound(p);
      var v := DigitsValue(s);
      assert v / 10 == DigitsValue(p) && v % 10 == d;
      assert DigitChar(d) == s[|s| - 1];
      assert s == p + [s[|s| - 1]];
    }
  }

  /** Reading back what `Itoa` wrote gives the number again, at every width it fits. */
  lemma ParseFormatRoundTrip(n: int, bitSize: nat)
    requires 1 <= bitSize <= 64 && InRange(n, bitSize)
    ensures ParseInt(FormatInt(n), bitSize) == Some(n)
  {
    var s := FormatInt(n);
    if n < 0 {
      var digits := NatDigits(-n);
      DigitsRoundTrip(-n);
      assert s == "-" + digits;
      assert s[0] == '-' && Unsigned(s) == digits;
    } else {
      DigitsRoundTrip(n);
      assert IsDigit(s[0]);
      assert Unsigned(s) == s;
    }
  }

  /** Writing out what `ParseInt` read gives the text again when it was canonical. */
  lemma FormatParseRoundTrip(s: string, bitSize: nat)
    requires 1 <= bitSize <= 64 && IsCanonical(s) && ParseInt(s, bitSize).Some?
    ensures FormatInt(ParseInt(s, bitSize).value) == s
  {
    if s[0] == '-' {
      var digits := s[1..];
      DigitsCanonical(digits);
      LeadingDigitBound(digits);
      assert s == "-" + digits;
    } else {
      DigitsCanonical(s);
    }
  }

  lemma {:induction false} LeadingZeroValue(t: string)
    requires AllDigits(t)
    ensures AllDigits("0" + t) && DigitsValue("0" + t) == DigitsValue(t)
  {
    var z := "0" + t;
    assert AllDigits(z);
    if |t| > 0 {
      assert z[..|z| - 1] == "0" + t[..|t| - 1];
      assert z[|z| - 1] == t[|t| - 1];
      LeadingZeroValue(t[..|t| - 1]);
    } else {
      assert z[..|z| - 1] == "";
    }
  }

  /** A leading `+` changes nothing: `+128` reads as `128`. */
  lemma PlusSignIgnored(t: string, bitSize: nat)
    requires 1 <= bitSize <= 64 && |t| > 0 && IsDigit(t[0])
    ensures ParseInt("+" + t, bitSize) == ParseInt(t, bitSize)
  {
    assert ("+" + t)[1..] == t;
  }

  /** A leading zero after the optional sign changes nothing: `-007` reads as `-07`, then `-7`. */
  lemma LeadingZeroIgnored(sign: string, t: string, bitSize: nat)
    requires 1 <= bitSize <= 64 && (sign == "" || sign == "+" || sign == "-")
    requires |t| > 0 && AllDigits(t)
    ensures ParseInt(sign + "0" + t, bitSize) == ParseInt(sign + t, bitSize)
  {
    LeadingZeroValue(t);
    var a := sign + "0" + t;
    var b := sign + t;
    assert a[0] == (if sign == "" then '0' else sign[0]);
    assert b[0] == (if sign == "" then t[0] else sign[0]);
    assert Unsigned(a) == "0" + t;
    assert Unsigned(b) == t;
  }

  /** `-0` reads as 0. */
  lemma NegativeZero(bitSize: nat)
    requires 1 <= bitSize <= 64
    ensures ParseInt("-0", bitSize) == Some(0)
  {
    assert Unsigned("-0") == "0";
    assert DigitsValue("0") == 0 by {
      assert "0"[..0] == "";
    }
  }
}
