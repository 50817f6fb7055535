/**
 * `Number.prototype.toFixed(1)` on exact reals: the percentage string the
 * scorer reports. The value is rounded to the nearest tenth (a tie goes to
 * the larger tenth), written in decimal with one digit after the point, and
 * prefixed with "-" when the number is negative.
 */
module Format {

  function DigitChar(d: nat): char
    requires d < 10
  {
    ('0' as int + d) as char
  }

  function DigitValue(c: char): nat {
    if '0' <= c <= '9' then (c - '0') as nat else 0
  }

  /** Decimal digits of n, without leading zeros ("0" for zero). */
  function NatToString(n: nat): (s: string)
    ensures |s| >= 1
    ensures forall i :: 0 <= i < |s| ==> '0' <= s[i] <= '9'
    decreases n
  {
    if n < 10 then [DigitChar(n)] else NatToString(n / 10) + [DigitChar(n % 10)]
  }

  /** The number a string of decimal digits denotes. */
  function ParseNat(s: string): nat {
    if |s| == 0 then 0 else ParseNat(s[..|s| - 1]) * 10 + DigitValue(s[|s| - 1])
  }

  lemma {:induction false} ParseNatToString(n: nat)
    ensures ParseNat(NatToString(n)) == n
    decreases n
  {
    var s := NatToString(n);
    if n < 10 {
      assert s[..0] == [];
    } else {
      ParseNatToString(n / 10);
      assert s[..|s| - 1] == NatToString(n / 10);
    }
  }

  /** The tenths of a non-negative x, rounded to the nearest, a tie going up. */
  function Tenths(x: real): (n: nat)
    requires x >= 0.0
    ensures 10.0 * x - 0.5 < n as real <= 10.0 * x + 0.5
  {
    (x * 10.0 + 0.5).Floor
  }

  /** The tenths n written as a decimal with one digit after the point. */
  function TenthsToString(n: nat): string {
    NatToString(n / 10) + "." + [DigitChar(n % 10)]
  }

  lemma TenthsToStringDenotes(n: nat)
    ensures var s := TenthsToString(n);
      |s| >= 3 && s[|s| - 2] == '.' && ParseNat(s[..|s| - 2] + [s[|s| - 1]]) == n
  {
    var s := TenthsToString(n);
    var digits := NatToString(n / 10) + [DigitChar(n % 10)];
    ParseNatToString(n / 10);
    assert digits[..|digits| - 1] == NatToString(n / 10);
    assert s[..|s| - 2] + [s[|s| - 1]] == digits;
  }

  /** Largest magnitude `toFixed` writes in positional notation. */
  const FixedLimit: real := 1000000000000000000000.0

  /** `x.toFixed(1)` for |x| < 10^21. */
  function ToFixed1(x: real): (s: string)
    requires -FixedLimit < x < FixedLimit
    ensures |s| >= 3 && s[|s| - 2] == '.'
    ensures (|s| > 0 && s[0] == '-') <==> x < 0.0
  {
    var sign := if x < 0.0 then "-" else "";
    sign + TenthsToString(Tenths(if x < 0.0 then -x else x))
  }

  /**
   * Reading the digits of `ToFixed1(x)` back, with the sign and the point
   * dropped, gives the rounded tenths of |x|.
   */
  lemma ToFixed1Denotes(x: real)
    requires -FixedLimit < x < FixedLimit
    ensures var s := ToFixed1(x);
      var body := if x < 0.0 then s[1..] else s;
      && |body| >= 3
      && ParseNat(body[..|body| - 2] + [body[|body| - 1]]) == Tenths(if x < 0.0 then -x else x)
  {
    var n := Tenths(if x < 0.0 then -x else x);
    TenthsToStringDenotes(n);
    var s := ToFixed1(x);
    var body := if x < 0.0 then s[1..] else s;
    assert body == TenthsToString(n);
  }

  lemma ToFixed1Hundred()
    ensures ToFixed1(100.0) == "100.0"
  {
    assert Tenths(100.0) == 1000;
    assert NatToString(100) == "100";
  }

  lemma ToFixed1Zero()
    ensures ToFixed1(0.0) == "0.0"
  {
  }
}
