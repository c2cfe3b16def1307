/**
 * The few string operations the payment-link validator relies on:
 * decimal integer parsing as done by Go's `strconv.Atoi` and
 * `strconv.ParseInt(s, 10, 64)`, `%d` formatting, `strings.Contains` and
 * `strings.TrimRight` with a one-character cut set.
 */
module Text {
  import opened Wrappers

  const Int64Min: int := -0x8000_0000_0000_0000
  const Int64Max: int := 0x7fff_ffff_ffff_ffff

  predicate IsDigit(c: char) { '0' <= c <= '9' }

  predicate AllDigits(s: string)
  {
    forall i :: 0 <= i < |s| ==> IsDigit(s[i])
  }

  function DigitValue(c: char): nat
    requires IsDigit(c)
  {
    c as int - '0' as int
  }

  function DigitChar(d: nat): (c: char)
    requires d < 10
    ensures IsDigit(c) && DigitValue(c) == d
  {
    ('0' as int + d) as char
  }

  /** The value of a string of decimal digits, most significant first. */
  function DigitsValue(s: string): nat
    requires AllDigits(s)
    decreases |s|
  {
    if s == [] then 0 else DigitsValue(s[..|s| - 1]) * 10 + DigitValue(s[|s| - 1])
  }

  /** The digits after an optional leading '+' or '-'. */
  function Unsigned(s: string): string
  {
    if |s| > 0 && (s[0] == '-' || s[0] == '+') then s[1..] else s
  }

  /** An optional sign, then one or more ASCII digits and nothing else. */
  predicate IsDecimal(s: string)
  {
    Unsigned(s) != [] && AllDigits(Unsigned(s))
  }

  /** The integer a decimal string denotes, leading zeros and a '+' allowed. */
  function SignedValue(s: string): int
    requires IsDecimal(s)
  {
    var magnitude: int := DigitsValue(Unsigned(s));
    if s[0] == '-' then -magnitude else magnitude
  }

  /**
   * Base-10 parsing into a signed 64-bit integer: an optional '+' or '-',
   * then one or more ASCII digits and nothing else; a value outside the
   * 64-bit range is an error, as is every other string.
   */
  function ParseInt64(s: string): (r: Option<int>)
    ensures r.Some? <==> IsDecimal(s) && Int64Min <= SignedValue(s) <= Int64Max
    ensures r.Some? ==> r.value == SignedValue(s)
  {
    var signed := |s| > 0 && (s[0] == '-' || s[0] == '+');
    var digits := if signed then s[1..] else s;
    if digits == [] || !AllDigits(digits) then None
    else
      var magnitude: int := DigitsValue(digits);
      var v := if s[0] == '-' then -magnitude else magnitude;
      if Int64Min <= v <= Int64Max then Some(v) else None
  }

  /** Leading zeros do not change a digit string's value. */
  lemma {:induction false} LeadingZeroValue(s: string)
    requires AllDigits(s)
    ensures DigitsValue("0" + s) == DigitsValue(s)
    decreases |s|
  {
    if s != [] {
      var t := "0" + s;
      assert t[..|t| - 1] == "0" + s[..|s| - 1];
      assert t[|t| - 1] == s[|s| - 1];
      LeadingZeroValue(s[..|s| - 1]);
    }
  }

  /** So parsing accepts leading zeros after the sign: "007" and "7" read the same. */
  lemma ParseLeadingZero(digits: string)
    requires digits != [] && AllDigits(digits)
    ensures ParseInt64("0" + digits) == ParseInt64(digits)
    ensures ParseInt64("+" + digits) == ParseInt64(digits)
  {
    LeadingZeroValue(digits);
    assert Unsigned("+" + digits) == digits;
    assert ("0" + digits)[0] == '0';
  }

  /** A character other than a digit after the optional sign makes the string unparsable. */
  lemma ParseRejectsNonDigit(s: string, i: nat)
    requires 0 < i < |s| && !IsDigit(s[i])
    ensures ParseInt64(s) == None
  {
    assert Unsigned(s)[i - (|s| - |Unsigned(s)|)] == s[i];
  }

  /** Decimal digits of a natural number, without leading zeros. */
  function FormatNat(n: nat): (s: string)
    ensures s != [] && AllDigits(s)
    ensures n >= 10 ==> s[0] != '0'
    decreases n
  {
    if n < 10 then [DigitChar(n)] else FormatNat(n / 10) + [DigitChar(n % 10)]
  }

  /** Go's `%d`: a '-' before the digits of a negative number. */
  function FormatInt(i: int): (s: string)
    ensures s != []
    ensures (s[0] == '-') <==> i < 0
  {
    if i < 0 then "-" + FormatNat(-i) else FormatNat(i)
  }

  lemma {:induction false} FormatNatValue(n: nat)
    ensures DigitsValue(FormatNat(n)) == n
    decreases n
  {
    var s := FormatNat(n);
    if n >= 10 {
      FormatNatValue(n / 10);
      assert s[..|s| - 1] == FormatNat(n / 10);
    } else {
      assert s[..|s| - 1] == [];
    }
  }

  /** Parsing the printed form of any 64-bit integer gives that integer back. */
  lemma ParseFormatRoundTrip(i: int)
    requires Int64Min <= i <= Int64Max
    ensures ParseInt64(FormatInt(i)) == Some(i)
  {
    var s := FormatInt(i);
    if i < 0 {
      FormatNatValue(-i);
      assert s[1..] == FormatNat(-i);
    } else {
      FormatNatValue(i);
    }
  }

  /** `strings.Contains(s, sub)`. */
  predicate Contains(s: string, sub: string)
    decreases |s|
  {
    sub <= s || (s != [] && Contains(s[1..], sub))
  }

  lemma {:induction false} ContainsInfix(before: string, sub: string, after: string)
    ensures Contains(before + sub + after, sub)
    decreases |before|
  {
    var s := before + sub + after;
    if before == [] {
      assert s == sub + after;
    } else {
      ContainsInfix(before[1..], sub, after);
      assert s[1..] == before[1..] + sub + after;
    }
  }

  /** `strings.TrimRight(s, string(c))`: drops every trailing `c`. */
  function TrimRight(s: string, c: char): (r: string)
    ensures r <= s
    ensures r == [] || r[|r| - 1] != c
    ensures forall i :: |r| <= i < |s| ==> s[i] == c
    decreases |s|
  {
    if s != [] && s[|s| - 1] == c then TrimRight(s[..|s| - 1], c) else s
  }
}
