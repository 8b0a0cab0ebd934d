// Decimal.quantize with ROUND_HALF_UP and str() of the quantized Decimal,
// over exact rationals: a value quantized to k places is an integer
// counting units of 10^-k.
module FixedPoint {
  import opened Wrappers
  import opened Strings
  import opened Numbers

  /** x counted in units of 10^-k; defined by repeated multiplication by ten. */
  function Scaled(x: real, k: nat): real {
    if k == 0 then x else Scaled(x, k - 1) * 10.0
  }

  /** Scaling preserves the sign. */
  lemma {:induction false} ScaledSign(x: real, k: nat)
    ensures (x < 0.0 ==> Scaled(x, k) < 0.0) && (x >= 0.0 ==> Scaled(x, k) >= 0.0)
  {
    if k > 0 {
      ScaledSign(x, k - 1);
    }
  }

  /** Scaling is odd. */
  lemma {:induction false} ScaledNegate(x: real, k: nat)
    ensures Scaled(-x, k) == -Scaled(x, k)
  {
    if k > 0 {
      ScaledNegate(x, k - 1);
    }
  }

  /** Scaling undoes Units. */
  lemma {:induction false} ScaledUnits(n: int, k: nat)
    ensures Scaled(Units(n, k), k) == n as real
  {
    if k > 0 {
      ScaledUnitsStep(n, k, k);
    }
  }

  lemma {:induction false} ScaledUnitsStep(n: int, k: nat, j: nat)
    requires j <= k
    ensures Scaled(Units(n, k), j) == Units(n, k - j)
  {
    if j > 0 {
      ScaledUnitsStep(n, k, j - 1);
    }
  }

  /**
   * x.quantize(Decimal(10) ** -k, rounding=ROUND_HALF_UP): the nearest
   * multiple of 10^-k, a tie going away from zero, in units of 10^-k.
   */
  function QuantizeHalfUp(x: real, k: nat): (q: int)
    ensures x >= 0.0 ==> q >= 0 && q as real - 0.5 <= Scaled(x, k) < q as real + 0.5
    ensures x < 0.0 ==> q <= 0 && q as real - 0.5 < Scaled(x, k) <= q as real + 0.5
  {
    var y := Scaled(x, k);
    ScaledSign(x, k);
    if x >= 0.0 then (y + 0.5).Floor else -((-y + 0.5).Floor)
  }

  /** The rounding is unique: any integer that is nearest with ties away from zero is the quantized value. */
  lemma {:induction false} QuantizeHalfUpUnique(x: real, k: nat, q: int)
    requires x >= 0.0 ==> q as real - 0.5 <= Scaled(x, k) < q as real + 0.5
    requires x < 0.0 ==> q as real - 0.5 < Scaled(x, k) <= q as real + 0.5
    ensures QuantizeHalfUp(x, k) == q
  {
  }

  /** ROUND_HALF_UP is symmetric about zero. */
  lemma {:induction false} QuantizeHalfUpNegate(x: real, k: nat)
    requires x != 0.0
    ensures QuantizeHalfUp(-x, k) == -QuantizeHalfUp(x, k)
  {
    ScaledNegate(x, k);
    QuantizeHalfUpUnique(-x, k, -QuantizeHalfUp(x, k));
  }

  /** A value already on the 10^-k grid is unchanged by quantizing. */
  lemma {:induction false} QuantizeHalfUpExact(n: int, k: nat)
    ensures QuantizeHalfUp(Units(n, k), k) == n
  {
    var x := Units(n, k);
    ScaledUnits(n, k);
    QuantizeHalfUpUnique(x, k, n);
  }

  /** A canonical rendering of n < 10^k has at most k digits. */
  lemma {:induction false} NatToStringLength(n: nat, k: nat)
    requires 1 <= k
    ensures n < Pow10(k) ==> |NatToString(n)| <= k
  {
    if n >= 10 && n < Pow10(k) {
      assert k >= 2;
      assert n / 10 < Pow10(k - 1);
      NatToStringLength(n / 10, k - 1);
    }
  }

  /** The magnitude digits of a quantized value, integer part and k fraction digits. */
  function FixedDigits(m: nat, k: nat): string {
    WholeDigits(m, k) + (if k == 0 then "" else "." + FractionDigits(m, k))
  }

  /** The digits before the point: m div 10^k. */
  function WholeDigits(m: nat, k: nat): (s: string)
    ensures |s| > 0 && AllDigits(s) && DigitsValue(s) == m / Pow10(k)
  {
    DivMod(m, Pow10(k));
    NatToString(m / Pow10(k))
  }

  /** The k digits after the point: m mod 10^k, zero-padded. */
  function FractionDigits(m: nat, k: nat): (s: string)
    ensures AllDigits(s) && DigitsValue(s) == m % Pow10(k)
    ensures k > 0 ==> |s| == k
  {
    DivMod(m, Pow10(k));
    NatToStringLength(m % Pow10(k), if k > 0 then k else 1);
    PadZeros(NatToString(m % Pow10(k)), k)
  }

  /** The two digit groups together denote m units of 10^-k. */
  lemma {:induction false} FixedDigitsValue(m: nat, k: nat)
    requires k > 0
    ensures DigitsValue(WholeDigits(m, k)) as real + FractionValue(FractionDigits(m, k)) == Units(m, k)
  {
    var p := Pow10(k);
    DivMod(m, p);
    UnitsAdd(p * (m / p), m % p, k);
    UnitsOfPow10(m / p, k);
  }

  /**
   * str(x.quantize(Decimal(10) ** -k, ROUND_HALF_UP)): a minus sign when x
   * is negative (so a negative value that rounds to zero shows "-0.00"),
   * the integer part, and exactly k fraction digits.
   */
  function FixedToString(x: real, k: nat): string {
    var q := QuantizeHalfUp(x, k);
    SignedFixed(x < 0.0, Magnitude(q), k)
  }

  /** The magnitude m (in units of 10^-k), preceded by a minus sign when `neg`. */
  function SignedFixed(neg: bool, m: nat, k: nat): string {
    if neg then "-" + FixedDigits(m, k) else FixedDigits(m, k)
  }

  /** Reading `a.b` for digit strings a (non-empty) and b. */
  lemma {:induction false} ReadingOfPoint(a: string, b: string)
    requires |a| > 0 && AllDigits(a) && AllDigits(b)
    ensures DecimalReading(a + "." + b) == Some(DigitsValue(a) as real + FractionValue(b))
  {
    var s := a + "." + b;
    assert SignAndBody(s) == (false, s) by {
      assert s[0] == a[0];
    }
    assert s[..|a|] == a && s[|a| + 1..] == b;
    IndexOfAt(s, '.', |a|);
  }

  /** A leading minus sign negates the reading of an unsigned numeral. */
  lemma {:induction false} ReadingOfMinus(d: string, v: real)
    requires |d| > 0 && IsDigit(d[0]) && DecimalReading(d) == Some(v)
    ensures DecimalReading("-" + d) == Some(-v)
  {
    assert SignAndBody(d) == (false, d);
    assert SignAndBody("-" + d) == (true, d);
  }

  /** Reading the magnitude digits back gives m units of 10^-k exactly. */
  lemma {:induction false} FixedDigitsReading(m: nat, k: nat)
    ensures |FixedDigits(m, k)| > 0 && IsDigit(FixedDigits(m, k)[0])
    ensures DecimalReading(FixedDigits(m, k)).Some? && DecimalReading(FixedDigits(m, k)).value == Units(m, k)
  {
    if k == 0 {
      WholeReading(m);
    } else {
      PointReading(m, k);
    }
  }

  lemma {:induction false} WholeReading(m: nat)
    ensures DecimalReading(FixedDigits(m, 0)).Some? && DecimalReading(FixedDigits(m, 0)).value == Units(m, 0)
  {
    assert FixedDigits(m, 0) == NatToString(m);
    DecimalReadingOfNat(m);
  }

  lemma {:induction false} PointReading(m: nat, k: nat)
    requires k > 0
    ensures DecimalReading(FixedDigits(m, k)).Some? && DecimalReading(FixedDigits(m, k)).value == Units(m, k)
  {
    var a, b := WholeDigits(m, k), FractionDigits(m, k);
    assert FixedDigits(m, k) == a + "." + b;
    ReadingOfPoint(a, b);
    FixedDigitsValue(m, k);
  }

  /** A minus sign and the magnitude digits read back as the negated magnitude. */
  lemma {:induction false} MinusFixedReading(m: nat, k: nat)
    ensures DecimalReading(SignedFixed(true, m, k)).Some? && DecimalReading(SignedFixed(true, m, k)).value == -Units(m, k)
  {
    var d := FixedDigits(m, k);
    FixedDigitsReading(m, k);
    ReadingOfMinus(d, DecimalReading(d).value);
  }

  /** Without the sign, the rendering is the magnitude digits. */
  lemma {:induction false} PlainFixedReading(m: nat, k: nat)
    ensures DecimalReading(SignedFixed(false, m, k)).Some? && DecimalReading(SignedFixed(false, m, k)).value == Units(m, k)
  {
    FixedDigitsReading(m, k);
  }

  /** The partner of FixedToString: the text denotes exactly the quantized value. */
  lemma {:induction false} FixedToStringReading(x: real, k: nat)
    ensures DecimalReading(FixedToString(x, k)).Some?
    ensures DecimalReading(FixedToString(x, k)).value == Units(QuantizeHalfUp(x, k), k)
  {
    SignedCountReading(x < 0.0, QuantizeHalfUp(x, k), k);
  }

  /**
   * Python's format(x, ".kf") on a float, taken as the exact value x: the
   * nearest multiple of 10^-k, a tie going to the even neighbour.
   */
  function QuantizeHalfEven(x: real, k: nat): (q: int)
    ensures q as real - 0.5 <= Scaled(x, k) <= q as real + 0.5
    ensures (Scaled(x, k) == q as real - 0.5 || Scaled(x, k) == q as real + 0.5) ==> q % 2 == 0
    ensures x >= 0.0 ==> q >= 0
    ensures x < 0.0 ==> q <= 0
  {
    var y := Scaled(x, k);
    ScaledSign(x, k);
    var f := y.Floor;
    var d := y - f as real;
    if d < 0.5 then f else if d > 0.5 then f + 1 else if f % 2 == 0 then f else f + 1
  }

  /** format(x, ".kf"): a minus sign when x is negative (so -0.001 shows "-0.00"), then the digits. */
  function FormatFloat(x: real, k: nat): string {
    var q := QuantizeHalfEven(x, k);
    SignedFixed(x < 0.0, Magnitude(q), k)
  }

  /** The partner of FormatFloat: the text denotes exactly the value rounded half to even. */
  lemma {:induction false} FormatFloatReading(x: real, k: nat)
    ensures DecimalReading(FormatFloat(x, k)).Some?
    ensures DecimalReading(FormatFloat(x, k)).value == Units(QuantizeHalfEven(x, k), k)
  {
    SignedCountReading(x < 0.0, QuantizeHalfEven(x, k), k);
  }

  /** The size of a count of units, without its sign. */
  function Magnitude(q: int): (m: nat)
    ensures m as int == q || m as int == -q
  {
    if q < 0 then -q else q
  }

  /** A count of units carrying the sign of the value reads back as that count. */
  lemma {:induction false} SignedCountReading(neg: bool, q: int, k: nat)
    requires neg ==> q <= 0
    requires !neg ==> q >= 0
    ensures DecimalReading(SignedFixed(neg, Magnitude(q), k)).Some?
    ensures DecimalReading(SignedFixed(neg, Magnitude(q), k)).value == Units(q, k)
  {
    var m := Magnitude(q);
    if neg {
      MinusFixedReading(m, k);
      UnitsNegate(q, k);
      assert m == -q;
    } else {
      PlainFixedReading(m, k);
      assert m == q;
    }
  }

  /** The two roundings differ only on exact ties. */
  lemma {:induction false} HalfEvenMatchesHalfUp(x: real, k: nat)
    requires Scaled(x, k) - Scaled(x, k).Floor as real != 0.5
    ensures QuantizeHalfEven(x, k) == QuantizeHalfUp(x, k)
  {
    var y := Scaled(x, k);
    ScaledSign(x, k);
    var q := QuantizeHalfEven(x, k);
    if x >= 0.0 {
      assert q as real - 0.5 <= y < q as real + 0.5;
    } else {
      assert q as real - 0.5 < y <= q as real + 0.5;
    }
    QuantizeHalfUpUnique(x, k, q);
  }

  /** str(i) reads back as i. */
  lemma {:induction false} IntToStringReading(i: int)
    ensures DecimalReading(IntToString(i)).Some? && DecimalReading(IntToString(i)).value == i as real
    ensures '.' !in IntToString(i)
  {
    if i < 0 {
      var d := NatToString(-i);
      DecimalReadingOfNat(-i);
      ReadingOfMinus(d, (-i) as real);
      assert '.' !in d by { assert forall j :: 0 <= j < |d| ==> IsDigit(d[j]); }
      assert IntToString(i) == "-" + d;
    } else {
      var d := NatToString(i);
      DecimalReadingOfNat(i);
      assert forall j :: 0 <= j < |d| ==> IsDigit(d[j]);
    }
  }

  /** Scaled to two places is multiplication by a hundred. */
  lemma {:induction false} ScaledCents(x: real)
    ensures Scaled(x, 2) == x * 100.0
  {
    assert Scaled(x, 1) == x * 10.0;
  }

  lemma {:induction false} UnitsCents(n: int)
    ensures Units(n, 2) == n as real / 100.0
  {
    assert Units(n, 1) == n as real / 10.0;
  }

  /** Quantizing half-up to cents moves a value by at most half a cent. */
  lemma {:induction false} CentsNear(x: real)
    ensures -0.005 <= Units(QuantizeHalfUp(x, 2), 2) - x <= 0.005
  {
    ScaledCents(x);
    UnitsCents(QuantizeHalfUp(x, 2));
  }

  /** str() of a Decimal quantized to 0.01 ends in a point and two digits. */
  lemma {:induction false} CentsShape(x: real)
    ensures var s := FixedToString(x, 2);
      |s| >= 4 && s[|s| - 3] == '.' && IsDigit(s[|s| - 2]) && IsDigit(s[|s| - 1])
  {
    var m := Magnitude(QuantizeHalfUp(x, 2));
    var w, f := WholeDigits(m, 2), FractionDigits(m, 2);
    assert FixedDigits(m, 2) == w + "." + f;
    var d := FixedDigits(m, 2);
    var s := FixedToString(x, 2);
    assert s == d || s == "-" + d;
    assert d[|d| - 3..] == "." + f;
    assert s[|s| - 3..] == d[|d| - 3..];
  }
}
