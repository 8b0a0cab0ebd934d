// Decimal rendering and reading of numbers: Python's str(int)/int(str),
// Go's "%d", and the plain decimal notation read by float(), Decimal() and
// strconv.ParseFloat (without exponents, see README).
module Numbers {
  import opened Wrappers
  import opened Strings

  predicate IsDigit(c: char) { '0' <= c <= '9' }

  predicate AllDigits(s: string) { forall i :: 0 <= i < |s| ==> IsDigit(s[i]) }

  function DigitValue(c: char): nat
    requires IsDigit(c)
  {
    c as int - '0' as int
  }

  function DigitChar(d: nat): (c: char)
    requires d < 10
    ensures IsDigit(c) && DigitValue(c) == d
  {
    ('0' as int + d) as char
  }

  function Pow10(k: nat): (p: nat)
    ensures p >= 1
  {
    if k == 0 then 1 else 10 * Pow10(k - 1)
  }

  /** Euclidean division by a positive divisor, stated once so that callers need no nonlinear reasoning. */
  lemma {:induction false} DivMod(m: nat, p: nat)
    requires p >= 1
    ensures m / p >= 0 && 0 <= m % p < p && m == p * (m / p) + m % p
  {
  }

  /** The value of a string of decimal digits, most significant first; "" reads 0. */
  function DigitsValue(s: string): nat
    requires AllDigits(s)
    decreases |s|
  {
    if s == [] then 0 else DigitsValue(s[..|s| - 1]) * 10 + DigitValue(s[|s| - 1])
  }

  /** A digit string of length k denotes less than 10^k. */
  lemma {:induction false} DigitsValueBound(s: string)
    requires AllDigits(s)
    ensures DigitsValue(s) < Pow10(|s|)
    decreases |s|
  {
    if s != [] {
      DigitsValueBound(s[..|s| - 1]);
    }
  }

  /** Leading zeros do not change the value of a digit string. */
  lemma {:induction false} DigitsValueLeadingZero(s: string)
    requires AllDigits(s)
    ensures AllDigits("0" + s) && DigitsValue("0" + s) == DigitsValue(s)
    decreases |s|
  {
    var t := "0" + s;
    if s != [] {
      assert t[..|t| - 1] == "0" + s[..|s| - 1];
      DigitsValueLeadingZero(s[..|s| - 1]);
    }
  }

  /** Reading digits appended to a digit string. */
  lemma {:induction false} DigitsValueConcat(a: string, b: string)
    requires AllDigits(a) && AllDigits(b)
    ensures AllDigits(a + b) && DigitsValue(a + b) == DigitsValue(a) * Pow10(|b|) + DigitsValue(b)
    decreases |b|
  {
    if b == [] {
      assert a + b == a;
    } else {
      var b', c := b[..|b| - 1], b[|b| - 1];
      DigitsValueConcat(a, b');
      var ab := a + b;
      assert ab == (a + b') + [c];
      assert ab[..|ab| - 1] == a + b';
      assert DigitsValue(ab) == DigitsValue(a + b') * 10 + DigitValue(c);
      ShiftDigit(DigitsValue(a), Pow10(|b'|), DigitsValue(b'), DigitValue(c));
    }
  }

  /** The arithmetic step of DigitsValueConcat: appending a digit multiplies the whole by ten. */
  lemma {:induction false} ShiftDigit(x: nat, p: nat, y: nat, d: nat)
    ensures (x * p + y) * 10 + d == x * (10 * p) + (y * 10 + d)
  {
  }

  /** str(n) for a natural number / Go's "%d": decimal digits without leading zeros. */
  function NatToString(n: nat): (s: string)
    ensures |s| >= 1 && AllDigits(s)
    ensures |s| > 1 ==> s[0] != '0'
    ensures DigitsValue(s) == n
  {
    if n < 10 then [DigitChar(n)]
    else
      var s := NatToString(n / 10) + [DigitChar(n % 10)];
      assert s[..|s| - 1] == NatToString(n / 10);
      s
  }

  /** A canonical digit string is the rendering of its own value (the other direction of the round trip). */
  lemma {:induction false} NatToStringOfDigits(s: string)
    requires |s| >= 1 && AllDigits(s) && (|s| > 1 ==> s[0] != '0')
    ensures NatToString(DigitsValue(s)) == s
    decreases |s|
  {
    var n := DigitsValue(s);
    if |s| == 1 {
      assert s[..0] == [];
      assert DigitsValue(s[..0]) == 0;
      assert n == DigitsValue(s[..0]) * 10 + DigitValue(s[0]);
      assert s == [DigitChar(n)];
    } else {
      var init, last := s[..|s| - 1], s[|s| - 1];
      assert init[0] == s[0];
      assert s == init + [last];
      var m := DigitsValue(init);
      assert n == m * 10 + DigitValue(last);
      LeadingDigitPositive(init);
      NatToStringOfDigits(init);
      TenthOf(m, DigitValue(last));
      assert DigitChar(DigitValue(last)) == last;
    }
  }

  /** A digit string that starts with a non-zero digit denotes a positive number. */
  lemma {:induction false} LeadingDigitPositive(s: string)
    requires |s| >= 1 && AllDigits(s) && s[0] != '0'
    ensures DigitsValue(s) > 0
    decreases |s|
  {
    if |s| > 1 {
      var init := s[..|s| - 1];
      assert init[0] == s[0];
      LeadingDigitPositive(init);
    } else {
      assert s[..0] == [];
    }
  }

  /** Dividing a number with its last decimal digit appended by ten. */
  lemma {:induction false} TenthOf(a: nat, d: nat)
    requires d < 10
    ensures (a * 10 + d) / 10 == a && (a * 10 + d) % 10 == d
  {
  }

  /** str(i) for an integer / Go's "%d". */
  function IntToString(i: int): string {
    if i < 0 then "-" + NatToString(-i) else NatToString(i)
  }

  /** Left-pads a digit string with zeros to width k. */
  function PadZeros(s: string, k: nat): (r: string)
    requires AllDigits(s)
    ensures AllDigits(r) && |r| == if |s| >= k then |s| else k
    ensures DigitsValue(r) == DigitsValue(s)
    decreases k - |s|
  {
    if |s| >= k then s else (DigitsValueLeadingZero(s); PadZeros("0" + s, k))
  }

  /** The digits following an optional sign: the common shape of int() and the decimal readers. */
  function SignAndBody(t: string): (bool, string) {
    if |t| > 0 && (t[0] == '-' || t[0] == '+') then (t[0] == '-', t[1..]) else (false, t)
  }

  /**
   * Python's int(s) on a string: surrounding white space, an optional
   * sign, then at least one ASCII digit; anything else is a ValueError (None).
   */
  function PyInt(s: string): (r: Option<int>)
    ensures r.Some? <==> (var (_, b) := SignAndBody(Trim(s)); |b| > 0 && AllDigits(b))
  {
    var (neg, body) := SignAndBody(Trim(s));
    if |body| > 0 && AllDigits(body) then
      Some(if neg then -(DigitsValue(body) as int) else DigitsValue(body))
    else None
  }

  /** int() reads back what str() wrote. */
  lemma {:induction false} PyIntOfIntToString(i: int)
    ensures PyInt(IntToString(i)) == Some(i)
  {
    var s := IntToString(i);
    var digits := NatToString(if i < 0 then -i else i);
    assert s[0] == '-' || IsDigit(s[0]);
    assert !IsSpace(s[0]) && !IsSpace(s[|s| - 1]);
    TrimNoSpace(s);
    if i < 0 {
      assert SignAndBody(s) == (true, digits);
    } else {
      assert SignAndBody(s) == (false, digits);
    }
  }

  /** n units of 10^-k, as a rational; defined by repeated division by ten. */
  function Units(n: int, k: nat): real {
    if k == 0 then n as real else Units(n, k - 1) / 10.0
  }

  /** Units is additive in its count. */
  lemma {:induction false} UnitsAdd(a: int, b: int, k: nat)
    ensures Units(a + b, k) == Units(a, k) + Units(b, k)
  {
    if k > 0 {
      UnitsAdd(a, b, k - 1);
    }
  }

  /** 10^k units of 10^-k make one. */
  lemma {:induction false} UnitsOfPow10(a: int, k: nat)
    ensures Units(Pow10(k) * a, k) == a as real
    decreases k
  {
    if k > 0 {
      calc {
        Units(Pow10(k) * a, k);
        Units(Pow10(k - 1) * (10 * a), k - 1) / 10.0;
        { UnitsOfPow10(10 * a, k - 1); }
        (10 * a) as real / 10.0;
      }
    }
  }

  /** Units is odd in its count. */
  lemma {:induction false} UnitsNegate(a: int, k: nat)
    ensures Units(-a, k) == -Units(a, k)
  {
    if k > 0 {
      UnitsNegate(a, k - 1);
    }
  }

  /** The value of the digits after a decimal point: "25" reads 0.25. */
  function FractionValue(frac: string): real
    requires AllDigits(frac)
  {
    Units(DigitsValue(frac), |frac|)
  }

  /**
   * An unsigned plain decimal numeral `digits[.digits]`, where either side
   * of the point may be empty but not both, read exactly as a rational.
   */
  function UnsignedReading(body: string): Option<real> {
    var i := IndexOf(body, '.');
    if i < 0 then
      if |body| > 0 && AllDigits(body) then Some(DigitsValue(body) as real) else None
    else
      var whole, frac := body[..i], body[i + 1..];
      if AllDigits(whole) && AllDigits(frac) && |whole| + |frac| > 0 then
        Some(DigitsValue(whole) as real + FractionValue(frac))
      else None
  }

  /** The plain decimal notation `[+-]digits[.digits]`, read exactly as a rational number. */
  function DecimalReading(s: string): Option<real> {
    var (neg, body) := SignAndBody(s);
    match UnsignedReading(body)
    case None => None
    case Some(v) => Some(if neg then -v else v)
  }

  /** A rendered natural number reads back as itself. */
  lemma {:induction false} DecimalReadingOfNat(n: nat)
    ensures DecimalReading(NatToString(n)) == Some(n as real)
  {
    var s := NatToString(n);
    assert s[0] != '-' && s[0] != '+' by { assert IsDigit(s[0]); }
    assert SignAndBody(s) == (false, s);
    assert IndexOf(s, '.') == -1;
    assert Split(s, '.') == [s];
  }

  /** A float converted to an integer (Go's int(x), Python's int(x)): truncation toward zero. */
  function Truncate(x: real): (n: int)
    ensures x >= 0.0 ==> n as real <= x < n as real + 1.0
    ensures x < 0.0 ==> n as real - 1.0 < x <= n as real
  {
    if x >= 0.0 then x.Floor else -((-x).Floor)
  }
}
