/**
 * The few operations on JavaScript numbers that the zoom math relies on,
 * stated over exact reals: Math.floor, Math.round, Math.abs, and the
 * decimal rendering that template strings apply to a number.
 */
module JsNumber {
  import opened Optional

  /**
   * A real with no fractional part: stepping one unit towards zero at a
   * time reaches 0 exactly. (Equivalent to `x.Floor as real == x`, see
   * IntegralIsFloor; the stepping form keeps the integer conversion out of
   * the arithmetic that the zoom derivation does on rounded values.)
   */
  predicate IsIntegral(x: real)
    decreases if x < 0.0 then (-x).Floor + 1 else x.Floor
  {
    if x < 0.0 then IsIntegral(x + 1.0)
    else if x < 1.0 then x == 0.0
    else IsIntegral(x - 1.0)
  }

  lemma {:induction false} IntegralIsFloor(x: real)
    ensures IsIntegral(x) <==> x.Floor as real == x
    decreases if x < 0.0 then (-x).Floor + 1 else x.Floor
  {
    if x < 0.0 {
      IntegralIsFloor(x + 1.0);
    } else if x < 1.0 {
    } else {
      IntegralIsFloor(x - 1.0);
    }
  }

  /** Two whole numbers less than one apart are the same number. */
  lemma IntegralsCloserThanOne(a: real, b: real)
    requires IsIntegral(a) && IsIntegral(b)
    requires a - 1.0 < b < a + 1.0
    ensures a == b
  {
    IntegralIsFloor(a);
    IntegralIsFloor(b);
    var i, j := a.Floor, b.Floor;
    assert i - 1 < j < i + 1;
  }

  /** Math.floor: the greatest integer not above `x`. */
  function Floor(x: real): (r: real)
    ensures IsIntegral(r)
    ensures r <= x < r + 1.0
  {
    IntegralIsFloor(x.Floor as real);
    x.Floor as real
  }

  /** `r` is the nearest integer to `x`, halves going up. */
  predicate RoundsTo(x: real, r: real) {
    IsIntegral(r) && x - 0.5 < r <= x + 0.5
  }

  lemma RoundsToUnique(x: real)
    ensures forall r1, r2 :: RoundsTo(x, r1) && RoundsTo(x, r2) ==> r1 == r2
  {
    forall r1, r2 | RoundsTo(x, r1) && RoundsTo(x, r2)
      ensures r1 == r2
    {
      IntegralsCloserThanOne(r1, r2);
    }
  }

  /** Math.round: the nearest integer, halves rounded towards +infinity. */
  function Round(x: real): (r: real)
    ensures IsIntegral(r)
    ensures x - 0.5 < r <= x + 0.5
  {
    IntegralIsFloor((x + 0.5).Floor as real);
    assert RoundsTo(x, (x + 0.5).Floor as real);
    RoundsToUnique(x);
    var r :| RoundsTo(x, r); r
  }

  /** Any integer within half a unit below or at half a unit above `x` is its rounding. */
  lemma RoundIs(x: real, k: real)
    requires IsIntegral(k) && x - 0.5 < k <= x + 0.5
    ensures Round(x) == k
  {
    IntegralsCloserThanOne(Round(x), k);
  }

  lemma IntIsIntegral(n: int)
    ensures IsIntegral(n as real)
  {
    IntegralIsFloor(n as real);
  }

  function Abs(x: real): (r: real)
    ensures r >= 0.0
    ensures r == x || r == -x
  {
    if x < 0.0 then -x else x
  }

  /** Rounding never reorders two numbers. */
  lemma RoundMonotone(x: real, y: real)
    requires x <= y
    ensures Round(x) <= Round(y)
  {
    var a, b := Round(x), Round(y);
    IntegralIsFloor(a);
    IntegralIsFloor(b);
    assert a.Floor < b.Floor + 1;
  }

  /** An integer is its own rounding. */
  lemma RoundIntegral(x: real)
    requires IsIntegral(x)
    ensures Round(x) == x
  {
    RoundIs(x, x);
  }

  // ---------------------------------------------------------------------
  // Decimal rendering

  predicate IsDigit(c: char) {
    '0' <= c <= '9'
  }

  function DigitChar(d: int): (c: char)
    requires 0 <= d < 10
    ensures IsDigit(c)
  {
    ('0' as int + d) as char
  }

  /** The value of a decimal digit character, or None for any other character. */
  function DigitValue(c: char): (r: Option<nat>)
    ensures r.Some? <==> IsDigit(c)
    ensures r.Some? ==> r.value < 10 && DigitChar(r.value) == c
  {
    if IsDigit(c) then Some((c as int - '0' as int) as nat) else None
  }

  /** The decimal digits of `n`, most significant first, without leading zeros. */
  function NatToString(n: nat): (s: string)
    ensures |s| > 0
    ensures forall i :: 0 <= i < |s| ==> IsDigit(s[i])
    decreases n
  {
    if n < 10 then [DigitChar(n)] else NatToString(n / 10) + [DigitChar(n % 10)]
  }

  /** JavaScript's rendering of an integer-valued number (below 1e21 in magnitude). */
  function IntToString(i: int): (s: string)
    ensures |s| > 0
    ensures forall k :: 0 <= k < |s| ==> IsDigit(s[k]) || s[k] == '-'
  {
    if i < 0 then "-" + NatToString(-i) else NatToString(i)
  }

  /** The number denoted by a non-empty string of decimal digits. */
  function ParseNat(s: string): (r: Option<nat>)
    decreases |s|
  {
    if s == [] then None
    else
      var last :- DigitValue(s[|s| - 1]);
      if |s| == 1 then Some(last)
      else
        var prefix :- ParseNat(s[..|s| - 1]);
        Some(prefix * 10 + last)
  }

  /** The integer denoted by an optional minus sign followed by decimal digits. */
  function ParseInt(s: string): Option<int> {
    if |s| > 0 && s[0] == '-' then
      var n :- ParseNat(s[1..]);
      var negated: int := -(n as int);
      Some(negated)
    else
      var n :- ParseNat(s);
      Some(n)
  }

  lemma {:induction false} ParseNatToString(n: nat)
    ensures ParseNat(NatToString(n)) == Some(n)
    decreases n
  {
    var s := NatToString(n);
    if n < 10 {
      assert s == [DigitChar(n)];
    } else {
      ParseNatToString(n / 10);
      assert s[..|s| - 1] == NatToString(n / 10);
      assert s[|s| - 1] == DigitChar(n % 10);
      assert DigitValue(DigitChar(n % 10)) == Some(n % 10);
      assert (n / 10) * 10 + n % 10 == n;
    }
  }

  /** Rendering an integer and reading it back gives the same integer. */
  lemma ParseIntToString(i: int)
    ensures ParseInt(IntToString(i)) == Some(i)
  {
    if i < 0 {
      var s := IntToString(i);
      assert s[1..] == NatToString(-i);
      ParseNatToString(-i);
    } else {
      ParseNatToString(i);
      var s := NatToString(i);
      assert IsDigit(s[0]);
    }
  }

  /**
   * Up to `count` digits of the decimal expansion of a fraction in [0, 1),
   * stopping early once the expansion terminates.
   */
  function FractionDigits(f: real, count: nat): (s: string)
    requires 0.0 <= f < 1.0
    ensures forall k :: 0 <= k < |s| ==> IsDigit(s[k])
    decreases count
  {
    if count == 0 || f == 0.0 then ""
    else
      var d := (f * 10.0).Floor;
      [DigitChar(d)] + FractionDigits(f * 10.0 - d as real, count - 1)
  }

  /**
   * The text a template string shows for a number. Integer values are
   * rendered exactly as JavaScript renders them; other values as their
   * decimal expansion cut after 17 fraction digits.
   */
  function NumberToString(x: real): (s: string)
    ensures forall k :: 0 <= k < |s| ==> IsDigit(s[k]) || s[k] == '-' || s[k] == '.'
  {
    if IsIntegral(x) then IntToString(x.Floor)
    else if x < 0.0 then "-" + PositiveFractionToString(-x)
    else PositiveFractionToString(x)
  }

  function PositiveFractionToString(x: real): (s: string)
    requires x > 0.0
    ensures forall k :: 0 <= k < |s| ==> IsDigit(s[k]) || s[k] == '.'
  {
    NatToString(x.Floor) + "." + FractionDigits(x - x.Floor as real, 17)
  }

  /** An integer-valued number is rendered as its integer digits. */
  lemma NumberToStringIntegral(x: real)
    requires IsIntegral(x)
    ensures NumberToString(x) == IntToString(x.Floor)
    ensures ParseInt(NumberToString(x)) == Some(x.Floor)
  {
    ParseIntToString(x.Floor);
  }
}
