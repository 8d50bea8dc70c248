/**
  Base-10 integers as text: the parsing done by Go's
  `strconv.ParseInt(s, 10, 64)` and the rendering done by the `%d` verb of
  `fmt.Sprintf`. The MISP records keep their timestamps as decimal strings and
  `MispError` renders its status code with `%d`; both rely on this module.
 */
module Decimal {
  import opened Wrappers

  const MinInt64: int := -0x8000_0000_0000_0000
  const MaxInt64: int := 0x7FFF_FFFF_FFFF_FFFF

  predicate IsInt64(n: int) {
    MinInt64 <= n <= MaxInt64
  }

  predicate IsDigit(c: char) {
    '0' <= c <= '9'
  }

  predicate AllDigits(s: string) {
    forall i :: 0 <= i < |s| ==> IsDigit(s[i])
  }

  function DigitValue(c: char): (d: nat)
    requires IsDigit(c)
    ensures d < 10
  {
    c as int - '0' as int
  }

  function DigitChar(d: nat): (c: char)
    requires d < 10
    ensures IsDigit(c) && DigitValue(c) == d
  {
    ('0' as int + d) as char
  }

  /** The value of a run of decimal digits, most significant digit first. */
  function DigitsValue(s: string): nat
    requires AllDigits(s)
  {
    if s == [] then 0 else DigitsValue(s[..|s| - 1]) * 10 + DigitValue(s[|s| - 1])
  }

  /** The digits that follow an optional leading '+' or '-'. */
  function Unsigned(s: string): string
    requires s != []
  {
    if s[0] == '+' || s[0] == '-' then s[1..] else s
  }

  /** The value of an optional sign followed by decimal digits. */
  function SignedValue(s: string): int
    requires s != [] && Unsigned(s) != [] && AllDigits(Unsigned(s))
  {
    var u: int := DigitsValue(Unsigned(s));
    if s[0] == '-' then -u else u
  }

  /**
    `strconv.ParseInt(s, 10, 64)`: an optional sign, then at least one decimal
    digit (leading zeros allowed, no underscores since the base is explicit),
    whose signed value must fit in 64 bits. `None` stands for every error
    ParseInt reports (syntax or range).
   */
  function ParseInt64(s: string): (r: Option<int>)
    ensures r.Some? ==> IsInt64(r.value)
    ensures r.Some? ==> s != [] && Unsigned(s) != [] && AllDigits(Unsigned(s)) && r.value == SignedValue(s)
  {
    if s == [] then None
    else
      var neg := s[0] == '-';
      var digits := Unsigned(s);
      if digits == [] || !AllDigits(digits) then None
      else
        var u: int := DigitsValue(digits);
        if !neg && u > MaxInt64 then None
        else if neg && u > -MinInt64 then None
        else Some(if neg then -u else u)
  }

  /** `%d` of a non-negative integer: no leading zeros, at least one digit. */
  function NatToDecimal(n: nat): (s: string)
    ensures s != [] && AllDigits(s)
    ensures s[0] == '0' ==> n == 0
  {
    if n < 10 then [DigitChar(n)] else NatToDecimal(n / 10) + [DigitChar(n % 10)]
  }

  /** `%d` of any integer: a '-' before the digits of a negative number. */
  function IntToDecimal(n: int): (s: string)
    ensures s != []
    ensures n < 0 <==> s[0] == '-'
    ensures forall i :: 0 <= i < |s| ==> IsDigit(s[i]) || (i == 0 && s[i] == '-')
  {
    if n < 0 then "-" + NatToDecimal(-n) else NatToDecimal(n)
  }

  /** Reading back the digits written by NatToDecimal gives the number. */
  lemma {:induction false} NatToDecimalValue(n: nat)
    ensures DigitsValue(NatToDecimal(n)) == n
  {
    if n >= 10 {
      var s := NatToDecimal(n);
      assert s[..|s| - 1] == NatToDecimal(n / 10);
      NatToDecimalValue(n / 10);
    }
  }

  /** Round trip: ParseInt accepts every 64-bit integer rendered with `%d`. */
  lemma ParseIntToDecimal(n: int)
    requires IsInt64(n)
    ensures ParseInt64(IntToDecimal(n)) == Some(n)
  {
    var s := IntToDecimal(n);
    if n < 0 {
      assert Unsigned(s) == NatToDecimal(-n);
      NatToDecimalValue(-n);
    } else {
      NatToDecimalValue(n);
    }
  }

  /** `%d` loses nothing: distinct integers have distinct renderings. */
  lemma IntToDecimalInjective(a: int, b: int)
    requires IntToDecimal(a) == IntToDecimal(b)
    ensures a == b
  {
    var s := IntToDecimal(a);
    if a < 0 {
      assert Unsigned(s) == NatToDecimal(-a) == NatToDecimal(-b);
      NatToDecimalValue(-a);
      NatToDecimalValue(-b);
    } else {
      NatToDecimalValue(a);
      NatToDecimalValue(b);
    }
  }

  /** ParseInt rejects the empty string and a lone sign. */
  lemma ParseRejectsNoDigits(s: string)
    requires s == [] || s == "+" || s == "-"
    ensures ParseInt64(s) == None
  {
    if s != [] {
      assert Unsigned(s) == [];
    }
  }

  /** ParseInt rejects any character other than a digit, except one leading sign. */
  lemma ParseRejectsNonDigit(s: string, i: nat)
    requires i < |s| && !IsDigit(s[i])
    requires i == 0 ==> s[0] != '+' && s[0] != '-'
    ensures ParseInt64(s) == None
  {
    var digits := Unsigned(s);
    if s[0] == '+' || s[0] == '-' {
      assert digits[i - 1] == s[i];
    } else {
      assert digits[i] == s[i];
    }
  }

  /** ParseInt rejects a well-formed number whose value does not fit in 64 bits. */
  lemma ParseRejectsOutOfRange(s: string)
    requires s != [] && Unsigned(s) != [] && AllDigits(Unsigned(s)) && !IsInt64(SignedValue(s))
    ensures ParseInt64(s) == None
  {
  }

  /**
    ParseInt accepts every optional sign followed by digits whose value fits
    in 64 bits, a '+' sign and leading zeros included, and yields that value.
   */
  lemma ParseAcceptsInRange(s: string)
    requires s != [] && Unsigned(s) != [] && AllDigits(Unsigned(s)) && IsInt64(SignedValue(s))
    ensures ParseInt64(s) == Some(SignedValue(s))
  {
  }

  /** "+5" reads as 5 and "-007" as -7. */
  lemma ParseAcceptsSignAndZeros()
    ensures ParseInt64("+5") == Some(5)
    ensures ParseInt64("-007") == Some(-7)
  {
    assert Unsigned("+5") == "5";
    assert Unsigned("-007") == "007";
    assert "007"[..2] == "00" && "00"[..1] == "0" && "0"[..0] == "";
    ParseAcceptsInRange("+5");
    ParseAcceptsInRange("-007");
  }
}
