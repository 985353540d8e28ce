/** Go's strconv.Atoi on a 64-bit platform, and the decimal rendering of `%d`.
    Atoi is what turns MIN_SUBNET_FREE_IPs and BATCH_SIZE into numbers. */
module Strconv {
  const MaxInt64: int := 0x7FFF_FFFF_FFFF_FFFF
  const MinInt64: int := -0x8000_0000_0000_0000
  const MaxUint64: int := 0xFFFF_FFFF_FFFF_FFFF
  /** ParseUint's overflow cutoff for base 10: maxUint64/10 + 1. */
  const Cutoff10: int := MaxUint64 / 10 + 1

  /** The error half of Atoi's result: nil, or a *NumError wrapping
      ErrSyntax or ErrRange. */
  datatype NumError = NoError | SyntaxError | RangeError

  /** Atoi's pair: on a syntax error the value is 0, on a range error it is
      the bound that was crossed. */
  datatype Parsed = Parsed(value: int, err: NumError)

  predicate IsDigit(c: char) { '0' <= c <= '9' }

  predicate AllDigits(s: string) { forall i :: 0 <= i < |s| ==> IsDigit(s[i]) }

  function DigitValue(c: char): int
    requires IsDigit(c)
  {
    c as int - '0' as int
  }

  /** ParseUint's digit loop: a non-digit ends it with a syntax error, and an
      overflow ends it at once with maxUint64 and a range error, before any
      later character is looked at. */
  function ScanDigits(s: string, n: int): (r: Parsed)
    requires 0 <= n <= MaxUint64
    ensures r.err == NoError ==> 0 <= r.value <= MaxUint64
    ensures r.err == RangeError ==> r.value == MaxUint64
    decreases |s|
  {
    if |s| == 0 then Parsed(n, NoError)
    else if !IsDigit(s[0]) then Parsed(0, SyntaxError)
    else if n >= Cutoff10 then Parsed(MaxUint64, RangeError)
    else
      var n1 := n * 10 + DigitValue(s[0]);
      if n1 > MaxUint64 then Parsed(MaxUint64, RangeError) else ScanDigits(s[1..], n1)
  }

  /** The digits after an optional leading sign. */
  function Unsigned(s: string): string
  {
    if |s| > 0 && (s[0] == '+' || s[0] == '-') then s[1..] else s
  }

  /** strconv.Atoi (64-bit int): an optional sign, then decimal digits; values
      beyond the int64 range are clamped and reported as range errors. */
  function Atoi(s: string): Parsed
  {
    if |s| == 0 then Parsed(0, SyntaxError)
    else
      var neg := s[0] == '-';
      var digits := Unsigned(s);
      if |digits| == 0 then Parsed(0, SyntaxError)
      else
        var u := ScanDigits(digits, 0);
        if u.err == SyntaxError then Parsed(0, SyntaxError)
        else if !neg && u.value > MaxInt64 then Parsed(MaxInt64, RangeError)
        else if neg && u.value > -MinInt64 then Parsed(MinInt64, RangeError)
        else Parsed(if neg then -u.value else u.value, NoError)
  }

  /** The text of a *NumError from Atoi; strconv.Quote's escaping of
      unprintable characters is not modelled. */
  function AtoiErrorText(s: string, e: NumError): string
  {
    "strconv.Atoi: parsing \"" + s + "\": " + (if e == SyntaxError then "invalid syntax" else "value out of range")
  }

  function DigitChar(d: int): (c: char)
    requires 0 <= d < 10
    ensures IsDigit(c) && DigitValue(c) == d
  {
    ('0' as int + d) as char
  }

  function NatDigits(n: nat): string
    decreases n
  {
    if n < 10 then [DigitChar(n)] else NatDigits(n / 10) + [DigitChar(n % 10)]
  }

  /** `%d` of a natural number is a non-empty run of digits. */
  lemma {:induction false} NatDigitsShape(n: nat)
    ensures |NatDigits(n)| >= 1 && AllDigits(NatDigits(n))
    decreases n
  {
    if n >= 10 {
      NatDigitsShape(n / 10);
      var init, last := NatDigits(n / 10), DigitChar(n % 10);
      assert NatDigits(n) == init + [last];
      assert forall i :: 0 <= i < |init| ==> NatDigits(n)[i] == init[i];
    }
  }

  /** fmt's `%d` of an integer. */
  function Itoa(n: int): string
  {
    if n < 0 then "-" + NatDigits(-n) else NatDigits(n)
  }

  lemma {:induction false} ScanAppend(a: string, b: string, n: int)
    requires 0 <= n <= MaxUint64
    requires ScanDigits(a, n).err == NoError
    ensures ScanDigits(a + b, n) == ScanDigits(b, ScanDigits(a, n).value)
    decreases |a|
  {
    if |a| > 0 {
      assert IsDigit(a[0]) && n < Cutoff10;
      var n1 := n * 10 + DigitValue(a[0]);
      assert n1 <= MaxUint64;
      assert ScanDigits(a, n) == ScanDigits(a[1..], n1);
      assert (a + b)[0] == a[0];
      assert (a + b)[1..] == a[1..] + b;
      assert ScanDigits(a + b, n) == ScanDigits(a[1..] + b, n1);
      ScanAppend(a[1..], b, n1);
    } else {
      assert a + b == b;
    }
  }

  lemma {:induction false} ScanNatDigits(m: nat)
    requires m <= MaxUint64
    ensures ScanDigits(NatDigits(m), 0) == Parsed(m, NoError)
    decreases m
  {
    if m >= 10 {
      ScanNatDigits(m / 10);
      ScanAppend(NatDigits(m / 10), [DigitChar(m % 10)], 0);
      assert m / 10 < Cutoff10;
      assert ScanDigits([DigitChar(m % 10)], m / 10) == ScanDigits([], m);
    }
  }

  /** Atoi reads back every int64 that `%d` writes. */
  lemma AtoiItoa(n: int)
    requires MinInt64 <= n <= MaxInt64
    ensures Atoi(Itoa(n)) == Parsed(n, NoError)
  {
    if n < 0 {
      NatDigitsShape(-n);
      ScanNatDigits(-n);
      assert Unsigned(Itoa(n)) == NatDigits(-n);
    } else {
      NatDigitsShape(n);
      ScanNatDigits(n);
      assert Unsigned(Itoa(n)) == NatDigits(n);
    }
  }

  lemma {:induction false} ScanOkIsDigits(s: string, n: int)
    requires 0 <= n <= MaxUint64
    requires ScanDigits(s, n).err == NoError
    ensures AllDigits(s)
    decreases |s|
  {
    if |s| > 0 {
      ScanOkIsDigits(s[1..], n * 10 + DigitValue(s[0]));
      assert forall i :: 1 <= i < |s| ==> s[i] == s[1..][i - 1];
    }
  }

  /** Atoi succeeds only on an optional sign followed by at least one digit,
      and then its value lies in the int64 range. */
  lemma AtoiOkShape(s: string)
    requires Atoi(s).err == NoError
    ensures |Unsigned(s)| > 0 && AllDigits(Unsigned(s))
    ensures MinInt64 <= Atoi(s).value <= MaxInt64
  {
    var u := ScanDigits(Unsigned(s), 0);
    assert u.err != SyntaxError;
    assert u.err != RangeError;
    ScanOkIsDigits(Unsigned(s), 0);
  }

  lemma {:induction false} ScanNonDigit(s: string, n: int, i: int)
    requires 0 <= n <= MaxUint64
    requires 0 <= i < |s| && !IsDigit(s[i])
    ensures ScanDigits(s, n).err != NoError
    decreases |s|
  {
    if i > 0 && IsDigit(s[0]) && n < Cutoff10 && n * 10 + DigitValue(s[0]) <= MaxUint64 {
      assert s[1..][i - 1] == s[i];
      ScanNonDigit(s[1..], n * 10 + DigitValue(s[0]), i - 1);
    }
  }

  /** Atoi of text with a character that is neither a sign in front nor a
      digit is an error. */
  lemma AtoiRejectsNonNumeric(s: string, i: int)
    requires 0 <= i < |s| && !IsDigit(s[i]) && !(i == 0 && (s[0] == '+' || s[0] == '-'))
    ensures Atoi(s).err != NoError
  {
    var u := Unsigned(s);
    if s[0] == '+' || s[0] == '-' {
      assert u[i - 1] == s[i];
      ScanNonDigit(u, 0, i - 1);
    } else {
      ScanNonDigit(u, 0, i);
    }
  }
}
