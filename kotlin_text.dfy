/**
 * Kotlin's `String.toIntOrNull()` (radix 10) and `Int.toString()`, over
 * ASCII decimal digits, with the 32-bit range of `Int`.
 */
module KotlinText {
  import opened Wrappers

  const IntMin: int := -0x8000_0000
  const IntMax: int := 0x7fff_ffff

  predicate IsDigit(c: char)
  {
    '0' <= c <= '9'
  }

  predicate AllDigits(s: string)
  {
    forall i :: 0 <= i < |s| ==> IsDigit(s[i])
  }

  /** The value of a digit string read most significant digit first; leading zeros are allowed. */
  function DigitsValue(s: string): nat
    requires AllDigits(s)
    decreases |s|
  {
    if s == [] then 0 else DigitsValue(s[..|s| - 1]) * 10 + (s[|s| - 1] as int - '0' as int)
  }

  /** `s` is an optional `+`/`-` followed by at least one ASCII digit and nothing else. */
  predicate IsNumeral(s: string)
  {
    |s| > 0 &&
    (if s[0] == '+' || s[0] == '-' then |s| > 1 && AllDigits(s[1..]) else AllDigits(s))
  }

  /** The mathematical value of a numeral, before the `Int` range check. */
  function NumeralValue(s: string): int
    requires IsNumeral(s)
  {
    if s[0] == '-' then -(DigitsValue(s[1..]) as int)
    else if s[0] == '+' then DigitsValue(s[1..])
    else DigitsValue(s)
  }

  /**
   * `s.toIntOrNull()`: null for the empty string, a lone sign, any character
   * that is not a digit after the optional sign, and any value outside `Int`.
   */
  function ParseIntOrNull(s: string): (r: Option<int>)
    ensures r.Some? <==> IsNumeral(s) && IntMin <= NumeralValue(s) <= IntMax
    ensures r.Some? ==> r.value == NumeralValue(s)
  {
    if |s| == 0 then None
    else
      var negative := s[0] == '-';
      var digits := if s[0] == '-' || s[0] == '+' then s[1..] else s;
      if digits == [] || !AllDigits(digits) then None
      else
        var magnitude: int := DigitsValue(digits);
        var v := if negative then -magnitude else magnitude;
        if IntMin <= v <= IntMax then Some(v) else None
  }

  /** The digits of `n` without leading zeros (`"0"` for zero). */
  function NatDigits(n: nat): (s: string)
    ensures |s| > 0
    decreases n
  {
    if n < 10 then [('0' as int + n) as char]
    else NatDigits(n / 10) + [('0' as int + n % 10) as char]
  }

  /** `n.toString()`: a `-` sign for negative values, then the digits. */
  function Decimal(n: int): (s: string)
    ensures |s| > 0
  {
    if n < 0 then "-" + NatDigits(-n) else NatDigits(n)
  }

  /** The rendered digits are digits, the first one is not `0` unless `n` is zero, and they read back as `n`. */
  lemma {:induction false} NatDigitsValue(n: nat)
    ensures AllDigits(NatDigits(n))
    ensures DigitsValue(NatDigits(n)) == n
    ensures n > 0 ==> NatDigits(n)[0] != '0'
    decreases n
  {
    var s := NatDigits(n);
    if n >= 10 {
      NatDigitsValue(n / 10);
      assert s[..|s| - 1] == NatDigits(n / 10);
    }
  }

  /** Parsing what `toString` printed gives back the same `Int`. */
  lemma ParseDecimal(n: int)
    requires IntMin <= n <= IntMax
    ensures ParseIntOrNull(Decimal(n)) == Some(n)
  {
    var s := Decimal(n);
    if n < 0 {
      NatDigitsValue(-n);
      assert s[1..] == NatDigits(-n);
    } else {
      NatDigitsValue(n);
      var d := NatDigits(n);
      assert d[0] != '+' && d[0] != '-' by { assert IsDigit(d[0]); }
    }
  }

  /** A leading zero does not change the value of a digit string. */
  lemma {:induction false} LeadingZeroValue(s: string)
    requires AllDigits(s)
    ensures AllDigits("0" + s) && DigitsValue("0" + s) == DigitsValue(s)
    decreases |s|
  {
    if s != [] {
      var t := "0" + s;
      LeadingZeroValue(s[..|s| - 1]);
      assert t[..|t| - 1] == "0" + s[..|s| - 1];
    }
  }

  /** Leading zeros after the optional sign are accepted and ignored. */
  lemma LeadingZeroParse(sign: string, digits: string)
    requires sign in {"", "+", "-"}
    requires |digits| > 0 && AllDigits(digits)
    ensures ParseIntOrNull(sign + "0" + digits) == ParseIntOrNull(sign + digits)
  {
    LeadingZeroValue(digits);
    var s, t := sign + "0" + digits, sign + digits;
    if sign == "" {
      assert s == "0" + digits;
      assert t == digits && digits[0] != '+' && digits[0] != '-' by { assert IsDigit(digits[0]); }
    } else {
      assert s[1..] == "0" + digits && t[1..] == digits;
    }
  }

  /** A single character parses, if at all, as a digit's value. */
  lemma SingleCharacterParse(s: string)
    ensures |s| == 1 && ParseIntOrNull(s).Some? ==> 0 <= ParseIntOrNull(s).value <= 9
  {
    if |s| == 1 && IsNumeral(s) {
      assert IsDigit(s[0]) && s[..0] == [];
      assert DigitsValue(s) == s[0] as int - '0' as int;
    }
  }

  /** Any character other than a digit, apart from a sign in front, makes the parse fail. */
  lemma NonDigitRejected(s: string, i: nat)
    requires i < |s| && !IsDigit(s[i])
    requires i > 0 || (s[i] != '+' && s[i] != '-')
    ensures ParseIntOrNull(s) == None
  {
  }
}
