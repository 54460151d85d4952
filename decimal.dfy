/**
  The integer handling behind the benchmark names: `static_cast<int>` of a
  `size_t` (a wrap into 32-bit two's complement) and `std::to_string(int)`
  (a canonical decimal numeral with a leading '-' for negative values),
  together with the parser that inverts `to_string`.
*/
module Decimal {
  import opened Wrappers

  const TwoTo31: int := 0x8000_0000
  const TwoTo32: int := 0x1_0000_0000

  /** `static_cast<int>(x)` for an unsigned `x`: the 32-bit two's-complement value congruent to `x`. */
  function Int32Cast(x: nat): (r: int)
    ensures -TwoTo31 <= r < TwoTo31
    ensures (x - r) % TwoTo32 == 0
    ensures x < TwoTo31 ==> r == x
  {
    var m := x % TwoTo32;
    if m < TwoTo31 then m else m - TwoTo32
  }

  /** The cast forgets multiples of 2^32: values that far apart cast to the same int. */
  lemma Int32CastWraps(x: nat)
    ensures Int32Cast(x + TwoTo32) == Int32Cast(x)
  {
    assert (x + TwoTo32) % TwoTo32 == x % TwoTo32;
  }

  predicate IsDigit(c: char) { '0' <= c <= '9' }

  predicate AllDigits(s: string) { forall i :: 0 <= i < |s| ==> IsDigit(s[i]) }

  /** A numeral `to_string` can produce for a non-negative value: digits only, no leading zero. */
  predicate IsCanonicalNumeral(s: string)
  {
    |s| >= 1 && AllDigits(s) && (s[0] == '0' ==> |s| == 1)
  }

  function DigitChar(d: nat): (c: char)
    requires d < 10
    ensures IsDigit(c)
  {
    ('0' as int + d) as char
  }

  function DigitValue(c: char): (d: nat)
    requires IsDigit(c)
    ensures d < 10 && DigitChar(d) == c
  {
    c as int - '0' as int
  }

  /** `std::to_string` of a non-negative value. */
  function NatToDecimal(x: nat): (s: string)
    ensures IsCanonicalNumeral(s)
    ensures s[0] == '0' <==> x == 0
    decreases x
  {
    if x < 10 then [DigitChar(x)] else NatToDecimal(x / 10) + [DigitChar(x % 10)]
  }

  /** The value a string of digits denotes, most significant digit first. */
  function DecimalValue(s: string): nat
    requires AllDigits(s)
    decreases |s|
  {
    if s == [] then 0 else DecimalValue(s[..|s| - 1]) * 10 + DigitValue(s[|s| - 1])
  }

  lemma {:induction false} DecimalValueOfNat(x: nat)
    ensures DecimalValue(NatToDecimal(x)) == x
    decreases x
  {
    if x >= 10 {
      DecimalValueOfNat(x / 10);
      var s := NatToDecimal(x);
      assert s[..|s| - 1] == NatToDecimal(x / 10);
    }
  }

  function ParseNat(s: string): Option<nat>
  {
    if IsCanonicalNumeral(s) then Some(DecimalValue(s)) else None
  }

  lemma ParseNatOfDecimal(x: nat)
    ensures ParseNat(NatToDecimal(x)) == Some(x)
  {
    DecimalValueOfNat(x);
  }

  /** Every numeral the parser accepts is the `to_string` of the value it yields. */
  lemma {:induction false} DecimalOfParseNat(s: string)
    requires IsCanonicalNumeral(s)
    ensures NatToDecimal(DecimalValue(s)) == s
    decreases |s|
  {
    if |s| > 1 {
      var p := s[..|s| - 1];
      assert IsCanonicalNumeral(p);
      DecimalOfParseNat(p);
      var d := DigitValue(s[|s| - 1]);
      var v := DecimalValue(p);
      assert v != 0;
      assert DecimalValue(s) / 10 == v && DecimalValue(s) % 10 == d;
      assert s == p + [s[|s| - 1]];
    }
  }

  /** `std::to_string(int)`. */
  function IntToString(i: int): (s: string)
    ensures |s| >= 1
    ensures forall k :: 0 <= k < |s| ==> IsDigit(s[k]) || s[k] == '-'
  {
    if i < 0 then "-" + NatToDecimal(-i) else NatToDecimal(i)
  }

  function ParseInt(s: string): Option<int>
  {
    if |s| >= 1 && s[0] == '-' then
      match ParseNat(s[1..])
      case Some(v) => if v == 0 then None else Some(-(v as int))
      case None => None
    else
      match ParseNat(s)
      case Some(v) => Option<int>.Some(v)
      case None => None
  }

  lemma ParseIntOfString(i: int)
    ensures ParseInt(IntToString(i)) == Some(i)
  {
    var s := IntToString(i);
    if i < 0 {
      assert s[1..] == NatToDecimal(-i);
      ParseNatOfDecimal(-i);
    } else {
      ParseNatOfDecimal(i);
    }
  }

  lemma StringOfParseInt(s: string, i: int)
    requires ParseInt(s) == Some(i)
    ensures IntToString(i) == s
  {
    if |s| >= 1 && s[0] == '-' {
      DecimalOfParseNat(s[1..]);
      assert s == "-" + s[1..];
    } else {
      DecimalOfParseNat(s);
    }
  }

  lemma IntToStringInjective(i: int, j: int)
    ensures IntToString(i) == IntToString(j) ==> i == j
  {
    ParseIntOfString(i);
    ParseIntOfString(j);
  }
}
