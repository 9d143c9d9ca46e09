/** Number rendering used by the report templates: template-literal
    interpolation of whole numbers (`${n}`) and `Number.prototype.toFixed(1)`.
    Values are exact reals, so binary floating-point rounding artefacts are
    not modelled. */
module Format {

  function DigitChar(d: nat): (c: char)
    requires d < 10
    ensures '0' <= c <= '9'
  {
    ('0' as int + d) as char
  }

  function DigitValue(c: char): (d: nat)
    requires '0' <= c <= '9'
    ensures d < 10
  {
    c as int - '0' as int
  }

  predicate AllDigits(s: string) {
    forall i :: 0 <= i < |s| ==> '0' <= s[i] <= '9'
  }

  /** Decimal rendering of a natural number, most significant digit first. */
  function NatToString(n: nat): (r: string)
    ensures |r| >= 1 && AllDigits(r)
    ensures n < 10 <==> |r| == 1
  {
    if n < 10 then [DigitChar(n)] else NatToString(n / 10) + [DigitChar(n % 10)]
  }

  /** Reads a run of decimal digits back as a number. */
  function ParseNat(s: string): nat
    requires AllDigits(s)
  {
    if |s| == 0 then 0 else 10 * ParseNat(s[..|s| - 1]) + DigitValue(s[|s| - 1])
  }

  /** Rendering then reading a natural number gives it back. */
  lemma {:induction false} ParseNatToString(n: nat)
    ensures ParseNat(NatToString(n)) == n
  {
    if n >= 10 {
      var s := NatToString(n);
      assert s[..|s| - 1] == NatToString(n / 10);
      ParseNatToString(n / 10);
    }
  }

  /** The number of tenths `toFixed(1)` prints for a non-negative magnitude:
      the nearest count, halves rounded up. */
  function Tenths(m: real): (n: nat)
    requires m >= 0.0
    ensures 10.0 * m - 0.5 < n as real <= 10.0 * m + 0.5
  {
    (10.0 * m + 0.5).Floor
  }

  function Abs(x: real): real {
    if x < 0.0 then -x else x
  }

  /** The shape `toFixed(1)` prints: an optional minus sign, at least one
      integral digit, a point and one decimal digit. */
  predicate IsFixed1Text(s: string) {
    var start := if |s| > 0 && s[0] == '-' then 1 else 0;
    && |s| >= start + 3
    && s[|s| - 2] == '.'
    && AllDigits(s[start..|s| - 2])
    && '0' <= s[|s| - 1] <= '9'
  }

  /** Reads a `toFixed(1)` text back as a number, as `parseFloat` does. */
  function ParseFixed1(s: string): (v: real)
    requires IsFixed1Text(s)
  {
    var start := if s[0] == '-' then 1 else 0;
    var m := ParseNat(s[start..|s| - 2]) as real + DigitValue(s[|s| - 1]) as real / 10.0;
    if start == 1 then -m else m
  }

  /** `x.toFixed(1)`: optional minus sign, integral part, a point and one
      decimal digit, rounding the magnitude half away from zero. */
  function Fixed1(x: real): (r: string)
    ensures IsFixed1Text(r)
    ensures x < 0.0 <==> r[0] == '-'
  {
    var n := Tenths(Abs(x));
    var sign := if x < 0.0 then "-" else "";
    var r := sign + NatToString(n / 10) + "." + [DigitChar(n % 10)];
    assert r[|sign|..|r| - 2] == NatToString(n / 10);
    r
  }

  /** `parseFloat(x.toFixed(1))`: a whole number of tenths with the sign of
      `x`, whose magnitude is the nearest tenth to `x`'s, halves rounded
      up. */
  function Round1(x: real): (r: real)
    ensures (r * 10.0).Floor as real == r * 10.0
    ensures x >= 0.0 ==> r >= 0.0
    ensures x < 0.0 ==> r <= 0.0
    ensures -0.5 < 10.0 * (Abs(r) - Abs(x)) <= 0.5
    ensures -0.05 <= r - x <= 0.05
  {
    var n := Tenths(Abs(x));
    var v := n as real / 10.0;
    assert v * 10.0 == n as real;
    if x < 0.0 then
      assert (-v * 10.0).Floor == -(n as int);
      -v
    else v
  }

  /** Reading the text `Fixed1` prints gives `Round1`'s value. */
  lemma Fixed1Reads(x: real)
    ensures ParseFixed1(Fixed1(x)) == Round1(x)
  {
    var n := Tenths(Abs(x));
    var sign := if x < 0.0 then "-" else "";
    var r := Fixed1(x);
    assert r[|sign|..|r| - 2] == NatToString(n / 10);
    ParseNatToString(n / 10);
    assert DigitValue(r[|r| - 1]) == n % 10;
    assert (n / 10) as real + (n % 10) as real / 10.0 == n as real / 10.0;
  }
}
