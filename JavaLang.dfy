/** The java.lang routines the harness relies on when it decodes text:
    32-bit int, Integer.parseInt (radix 10), Integer.toString,
    String.equalsIgnoreCase and Boolean.parseBoolean. */
module JavaLang {
  import opened Wrappers

  const MinInt: int := -0x8000_0000
  const MaxInt: int := 0x7fff_ffff

  /** Java's primitive int. */
  newtype int32 = x: int | -0x8000_0000 <= x < 0x8000_0000

  predicate IsDigit(c: char) { '0' <= c <= '9' }

  predicate AllDigits(s: string) { forall i :: 0 <= i < |s| ==> IsDigit(s[i]) }

  function DigitValue(c: char): nat
    requires IsDigit(c)
  {
    c as int - '0' as int
  }

  function DigitChar(d: nat): (c: char)
    requires d < 10
    ensures IsDigit(c) && DigitValue(c) == d
  {
    ('0' as int + d) as char
  }

  /** The number a run of decimal digits denotes, most significant digit first. */
  function DigitsValue(ds: string): nat
    requires AllDigits(ds)
  {
    if ds == [] then 0 else 10 * DigitsValue(ds[..|ds| - 1]) + DigitValue(ds[|ds| - 1])
  }

  /** Integer.parseInt(s): an optional '-' or '+', then at least one decimal
      digit, denoting a value in the 32-bit range. None stands for the
      NumberFormatException thrown on anything else (the empty string, a
      lone sign, a non-digit, an overflow). */
  function ParseInt(s: string): Option<int32>
  {
    if s == [] then None
    else
      var digits := if s[0] == '-' || s[0] == '+' then s[1..] else s;
      if digits == [] || !AllDigits(digits) then None
      else
        var magnitude: int := DigitsValue(digits);
        var n := if s[0] == '-' then -magnitude else magnitude;
        if MinInt <= n <= MaxInt then Some(n as int32) else None
  }

  /** Decimal digits of n, without leading zeros. */
  function NatToDecimal(n: nat): (s: string)
    ensures s != [] && AllDigits(s)
  {
    if n < 10 then [DigitChar(n)] else NatToDecimal(n / 10) + [DigitChar(n % 10)]
  }

  /** Integer.toString(n): the textual form of an int. */
  function IntToDecimal(n: int): string
  {
    if n < 0 then "-" + NatToDecimal(-n) else NatToDecimal(n)
  }

  /** The digits of n denote n. */
  lemma {:induction false} NatToDecimalValue(n: nat)
    ensures DigitsValue(NatToDecimal(n)) == n
  {
    if n >= 10 {
      var s := NatToDecimal(n);
      assert s[..|s| - 1] == NatToDecimal(n / 10);
      NatToDecimalValue(n / 10);
    }
  }

  /** Parsing the decimal rendering of any integer gives back that integer
      exactly when it is in the 32-bit range, and overflows otherwise. */
  lemma ParseIntDecimal(n: int)
    ensures ParseInt(IntToDecimal(n)) == if MinInt <= n <= MaxInt then Some(n as int32) else None
  {
    var s := IntToDecimal(n);
    if n < 0 {
      NatToDecimalValue(-n);
      assert s[1..] == NatToDecimal(-n);
    } else {
      NatToDecimalValue(n);
    }
  }

  /** Round trip: Integer.parseInt(Integer.toString(x)) == x for every int x. */
  lemma ParseIntRoundTrip(x: int32)
    ensures ParseInt(IntToDecimal(x as int)) == Some(x)
  {
    ParseIntDecimal(x as int);
  }

  /** A leading zero does not change the value of a digit run. */
  lemma {:induction false} LeadingZero(ds: string)
    requires AllDigits(ds)
    ensures AllDigits("0" + ds) && DigitsValue("0" + ds) == DigitsValue(ds)
  {
    if ds != [] {
      var zs := "0" + ds;
      assert zs[..|zs| - 1] == "0" + ds[..|ds| - 1];
      LeadingZero(ds[..|ds| - 1]);
    }
  }

  /** Integer.parseInt is lax about the form of its input: an explicit '+'
      and leading zeros are accepted and change nothing. */
  lemma ParseIntLaxForms(ds: string)
    requires ds != [] && AllDigits(ds)
    ensures ParseInt("+" + ds) == ParseInt(ds)
    ensures ParseInt("0" + ds) == ParseInt(ds)
  {
    assert ("+" + ds)[1..] == ds;
    LeadingZero(ds);
  }

  /** A digit run whose first digit is d denotes at least d. */
  lemma {:induction false} DigitsValueAtLeastFirst(ds: string)
    requires ds != [] && AllDigits(ds)
    ensures DigitsValue(ds) >= DigitValue(ds[0])
  {
    if |ds| > 1 {
      DigitsValueAtLeastFirst(ds[..|ds| - 1]);
    }
  }

  /** A digit run without a leading zero is the rendering of its value. */
  lemma {:induction false} CanonicalDigits(ds: string)
    requires ds != [] && AllDigits(ds) && (ds[0] == '0' ==> |ds| == 1)
    ensures NatToDecimal(DigitsValue(ds)) == ds
  {
    var front := ds[..|ds| - 1];
    if front != [] {
      DigitsValueAtLeastFirst(front);
      CanonicalDigits(front);
      var n := DigitsValue(ds);
      assert n / 10 == DigitsValue(front) && n % 10 == DigitValue(ds[|ds| - 1]);
      assert ds == front + [ds[|ds| - 1]];
    }
  }

  /** The text Integer.toString produces: '-' only before a non-zero
      magnitude, and no leading zeros. */
  predicate IsCanonicalDecimal(s: string)
  {
    var digits := if s != [] && s[0] == '-' then s[1..] else s;
    digits != [] && AllDigits(digits) && (digits[0] == '0' ==> s == "0")
  }

  /** Conversely to ParseIntRoundTrip: a canonical text that parses is the
      rendering of the int it parses to. */
  lemma ParseIntCanonical(s: string, x: int32)
    requires IsCanonicalDecimal(s) && ParseInt(s) == Some(x)
    ensures s == IntToDecimal(x as int)
  {
    if s[0] == '-' {
      CanonicalDigits(s[1..]);
      assert s == "-" + s[1..];
    } else {
      CanonicalDigits(s);
    }
  }

  /** Character.toLowerCase restricted to ASCII letters. */
  function ToLowerAscii(c: char): char
  {
    if 'A' <= c <= 'Z' then (c as int + 32) as char else c
  }

  /** String.equalsIgnoreCase, comparing letters by their ASCII lower case. */
  predicate EqualsIgnoreCase(a: string, b: string)
  {
    |a| == |b| && forall i :: 0 <= i < |a| ==> ToLowerAscii(a[i]) == ToLowerAscii(b[i])
  }

  /** Boolean.parseBoolean(s): true exactly for the sixteen spellings of
      "true" in any letter case; "false", "1", "yes" and everything else
      give false. */
  function ParseBoolean(s: string): (b: bool)
    ensures b <==> |s| == 4 && s[0] in "tT" && s[1] in "rR" && s[2] in "uU" && s[3] in "eE"
  {
    assert |s| == 4 ==> (EqualsIgnoreCase(s, "true") <==>
      ToLowerAscii(s[0]) == 't' && ToLowerAscii(s[1]) == 'r' &&
      ToLowerAscii(s[2]) == 'u' && ToLowerAscii(s[3]) == 'e');
    EqualsIgnoreCase(s, "true")
  }
}
