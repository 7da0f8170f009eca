/** Kotlin's `String.toIntOrNull()` (radix 10) and `Int.toString()`, the two
    conversions the form and the profile screen rely on. Kotlin `Int` is a
    32-bit two's-complement integer; here it is an unbounded `int` whose
    range is checked explicitly. */
module KotlinInt {
  import opened Wrappers

  const IntMin: int := -0x8000_0000
  const IntMax: int := 0x7fff_ffff

  predicate IsInt32(v: int) { IntMin <= v <= IntMax }

  predicate IsDigit(c: char) { '0' <= c <= '9' }

  predicate AllDigits(s: string) { forall i | 0 <= i < |s| :: IsDigit(s[i]) }

  function DigitValue(c: char): (d: nat)
    requires IsDigit(c)
    ensures d < 10
  {
    (c as int) - ('0' as int)
  }

  function DigitChar(d: nat): (c: char)
    requires d < 10
    ensures IsDigit(c) && DigitValue(c) == d
  {
    (('0' as int) + d) as char
  }

  /** The value of a string of decimal digits, most significant first;
      leading zeros are allowed and the empty string is worth 0. */
  function DigitsValue(s: string): nat
    requires AllDigits(s)
  {
    if s == [] then 0 else DigitsValue(s[..|s| - 1]) * 10 + DigitValue(s[|s| - 1])
  }

  /** The string without one leading `-` or `+`. */
  function Unsigned(s: string): (d: string)
    ensures |d| == |s| || (|d| == |s| - 1 && d == s[1..])
  {
    if s != [] && (s[0] == '-' || s[0] == '+') then s[1..] else s
  }

  /** `String.toIntOrNull()`: an optional leading `-` or `+` followed by at
      least one decimal digit and nothing else; `null` for the empty string,
      for a lone sign, for any other character, and for a value outside the
      32-bit range. */
  function ToIntOrNull(s: string): (r: Option<int>)
    ensures r.Some? ==> IsInt32(r.value)
    ensures r.Some? ==> Unsigned(s) != [] && AllDigits(Unsigned(s))
    ensures AllDigits(s) && s != [] && DigitsValue(s) <= IntMax ==> r == Some(DigitsValue(s))
    ensures AllDigits(s) && s != [] && DigitsValue(s) > IntMax ==> r.None?
  {
    if s == [] then None
    else
      var signed := s[0] == '-' || s[0] == '+';
      var digits := if signed then s[1..] else s;
      if digits == [] || !AllDigits(digits) then None
      else
        var v: int := if s[0] == '-' then 0 - DigitsValue(digits) as int else DigitsValue(digits);
        if IsInt32(v) then Some(v) else None
  }

  /** A `+` in front of digits changes nothing; a `-` negates them, and the
      negative range reaches one further than the positive one. */
  lemma SignedDigits(d: string)
    requires d != [] && AllDigits(d)
    ensures ToIntOrNull("+" + d) == ToIntOrNull(d)
    ensures ToIntOrNull("-" + d) == if DigitsValue(d) <= 0x8000_0000 then Some(0 - DigitsValue(d)) else None
  {
    assert ("+" + d)[1..] == d;
    assert ("-" + d)[1..] == d;
  }

  /** The spelling `Int.toString()` produces: an optional `-`, then digits
      with no leading zero, "0" itself standing alone and unsigned. */
  predicate Canonical(s: string)
  {
    var d := if s != [] && s[0] == '-' then s[1..] else s;
    d != [] && AllDigits(d) && (d[0] == '0' ==> s == "0")
  }

  /** Decimal digits of a natural number, without leading zeros. */
  function NatToString(n: nat): (s: string)
    ensures s != [] && AllDigits(s)
    ensures s[0] == '0' <==> n == 0
    ensures n == 0 ==> s == "0"
  {
    if n < 10 then [DigitChar(n)] else NatToString(n / 10) + [DigitChar(n % 10)]
  }

  /** `Int.toString()`: a `-` in front of the digits of a negative number. */
  function IntToString(v: int): (s: string)
    ensures s != [] && (IsDigit(s[0]) || s[0] == '-')
    ensures Canonical(s) && (s[0] == '-' <==> v < 0)
  {
    if v < 0 then "-" + NatToString(-v) else NatToString(v)
  }

  lemma {:induction false} NatToStringValue(n: nat)
    ensures DigitsValue(NatToString(n)) == n
  {
    var s := NatToString(n);
    if n >= 10 {
      NatToStringValue(n / 10);
      assert s[..|s| - 1] == NatToString(n / 10);
    }
  }

  /** Every 32-bit integer printed by `toString` parses back to itself. */
  lemma ToIntOrNullInvertsToString(v: int)
    requires IsInt32(v)
    ensures ToIntOrNull(IntToString(v)) == Some(v)
  {
    var s := IntToString(v);
    if v < 0 {
      NatToStringValue(-v);
      assert s[1..] == NatToString(-v);
    } else {
      NatToStringValue(v);
    }
  }
}
