/** Powers with any integer exponent, as exact reals. */
module Powers {
  function WholePower(base: nat, e: nat): (p: nat)
    requires base > 0
    ensures p > 0
  {
    if e == 0 then 1 else base * WholePower(base, e - 1)
  }

  function Power(base: nat, e: int): (p: real)
    requires base > 0
    ensures p > 0.0
  {
    if e >= 0 then WholePower(base, e) as real else 1.0 / WholePower(base, -e) as real
  }

  lemma PowerNext(base: nat, e: int)
    requires base > 0
    ensures Power(base, e + 1) == base as real * Power(base, e)
  {
    if e >= 0 {
      WholeTimes(base, WholePower(base, e));
    } else {
      var p := WholePower(base, -e - 1);
      WholeTimes(base, p);
      assert WholePower(base, -e) == base * p;
      Cancelled(base as real, p as real);
    }
  }

  lemma WholeTimes(a: int, b: int)
    ensures (a * b) as real == a as real * b as real
  {
  }

  lemma Cancelled(a: real, b: real)
    requires a > 0.0 && b > 0.0
    ensures a * b > 0.0 && a * (1.0 / (a * b)) == 1.0 / b
  {
  }

  lemma {:induction false} PowerAdd(base: nat, d: int, e: int)
    requires base > 0
    ensures Power(base, d + e) == Power(base, d) * Power(base, e)
    decreases if d < 0 then -d else d
  {
    hide Power;
    var b := base as real;
    if d == 0 {
      PowerZero(base);
    } else if d > 0 {
      PowerAdd(base, d - 1, e);
      PowerNext(base, d - 1);
      PowerNext(base, d - 1 + e);
      Regroup(b, Power(base, d - 1), Power(base, e));
    } else {
      PowerAdd(base, d + 1, e);
      PowerNext(base, d);
      PowerNext(base, d + e);
      Regroup(b, Power(base, d), Power(base, e));
      CancelLeft(b, Power(base, d + e), Power(base, d) * Power(base, e));
    }
  }

  lemma PowerZero(base: nat)
    requires base > 0
    ensures Power(base, 0) == 1.0
  {
  }

  lemma Regroup(a: real, b: real, c: real)
    ensures a * b * c == a * (b * c)
  {
  }

  lemma CancelLeft(a: real, b: real, c: real)
    requires a > 0.0 && a * b == a * c
    ensures b == c
  {
  }

  lemma {:induction false} PowerGrows(base: nat, d: int, e: int)
    requires base > 1 && d <= e
    ensures Power(base, d) <= Power(base, e)
    ensures d < e ==> base as real * Power(base, d) <= Power(base, e)
    decreases e - d
  {
    hide Power;
    if d == e {
    } else {
      PowerGrows(base, d + 1, e);
      PowerNext(base, d);
      AtLeast(base as real, Power(base, d));
    }
  }

  lemma AtLeast(a: real, b: real)
    requires a >= 1.0 && b >= 0.0
    ensures a * b >= b
  {
  }
}

/** The finite doubles of IEEE 754, and rounding to the nearest one with ties to even. */
module Doubles {
  import opened Prelude
  import opened Powers

  /** Two to the 53. */
  const MANTISSAS := 0x20_0000_0000_0000

  const LEAST := -1074
  const GREATEST := 971

  function Abs(x: real): real { if x < 0.0 then -x else x }

  function Scaled(m: int, e: int): real { m as real * Power(2, e) }

  predicate Represents(m: nat, e: int, x: real) {
    m < MANTISSAS && LEAST <= e <= GREATEST && x == Scaled(m, e)
  }

  ghost predicate IsDouble(x: real) {
    exists m: nat, e: int :: Represents(m, e, Abs(x))
  }

  lemma ZeroIsDouble()
    ensures IsDouble(0.0)
  {
    assert Scaled(0, 0) == 0.0;
    assert Represents(0, 0, Abs(0.0));
  }

  type Double = x: real | IsDouble(x) witness (ZeroIsDouble(); 0.0)

  const ZERO: Double := (ZeroIsDouble(); 0.0)

  /** The nearest integer, the even one when two are equally near. */
  function HalfEven(y: real): int {
    var f := y.Floor;
    var rest := y - f as real;
    if rest < 0.5 || (rest == 0.5 && f % 2 == 0) then f else f + 1
  }

  /** The least exponent, from `e` on, whose mantissas reach beyond `x`. */
  function BinaryExponent(x: real, e: int): (r: int)
    requires LEAST <= e <= GREATEST + 1
    ensures e <= r <= GREATEST + 1
    ensures r <= GREATEST ==> x < Scaled(MANTISSAS, r)
    ensures forall d :: e <= d < r ==> Scaled(MANTISSAS, d) <= x
    decreases GREATEST - e, x
  {
    if e > GREATEST || x < Scaled(MANTISSAS, e) then e else BinaryExponent(x, e + 1)
  }

  /** The double next to a magnitude, or none when it overflows. */
  function Round(x: real): Option<real> {
    var e := BinaryExponent(x, LEAST);
    if e > GREATEST then None
    else
      var m := HalfEven(x / Power(2, e));
      if e == GREATEST && m == MANTISSAS then None else Some(Scaled(m, e))
  }

  lemma {:induction false} TwoPower(d: nat)
    ensures Power(2, d) == WholePower(2, d) as real
  {
  }

  lemma ScaledDown(m: nat, e: int, d: int)
    requires d <= e
    ensures exists n: nat :: Scaled(m, e) == Scaled(n, d)
  {
    hide Power;
    var p := WholePower(2, e - d);
    TwoPower(e - d);
    PowerAdd(2, e - d, d);
    WholeTimes(m, p);
    Regroup(m as real, p as real, Power(2, d));
    assert Scaled(m, e) == Scaled(m * p, d);
  }

  lemma ScaledOver(m: int, e: int)
    ensures Scaled(m, e) / Power(2, e) == m as real
  {
    hide Power;
    Quotient(m as real, Power(2, e));
  }

  lemma Quotient(a: real, b: real)
    requires b > 0.0
    ensures a * b / b == a && a / b * b == a
  {
  }

  lemma ScaledOrder(a: real, b: real, p: real)
    requires p > 0.0
    ensures a < b <==> a * p < b * p
    ensures a <= b <==> a * p <= b * p
  {
  }

  lemma QuotientOrder(a: real, b: real, p: real)
    requires p > 0.0 && a <= b
    ensures a / p <= b / p
  {
    Quotient(a, p);
    Quotient(b, p);
    ScaledOrder(b / p, a / p, p);
  }

  lemma ScaledLess(m: int, n: int, e: int)
    ensures Scaled(m, e) < Scaled(n, e) <==> m < n
  {
    hide Power;
    ScaledOrder(m as real, n as real, Power(2, e));
  }

  lemma HalfEvenOfWhole(m: int)
    ensures HalfEven(m as real) == m
  {
  }

  lemma HalfEvenIsNear(y: real)
    ensures var h := HalfEven(y);
      && y.Floor <= h <= y.Floor + 1
      && y - 0.5 <= h as real <= y + 0.5
  {
  }

  lemma HalfEvenIsNearest(y: real, n: int)
    ensures Abs(y - HalfEven(y) as real) <= Abs(y - n as real)
  {
    hide HalfEven;
    HalfEvenIsNear(y);
    var h := HalfEven(y);
    if n < h {
      assert n as real <= h as real - 1.0;
    } else if n > h {
      assert n as real >= h as real + 1.0;
    }
  }

  lemma HalfEvenGrows(y: real, z: real)
    requires y <= z
    ensures HalfEven(y) <= HalfEven(z)
  {
    assert y.Floor <= z.Floor;
  }

  /** A double is what it rounds to. */
  lemma DoublesStay(x: real)
    requires IsDouble(x) && x >= 0.0
    ensures Round(x) == Some(x)
  {
    hide Power, HalfEven, BinaryExponent, Scaled;
    var m: nat, e: int :| Represents(m, e, Abs(x));
    var b := BinaryExponent(x, LEAST);
    hide Represents;
    assert x == Scaled(m, e) && m < MANTISSAS && LEAST <= e <= GREATEST;
    ScaledLess(m, MANTISSAS, e);
    assert e < b ==> Scaled(MANTISSAS, e) <= x;
    ScaledDown(m, e, b);
    var n: nat :| x == Scaled(n, b);
    ScaledOver(n, b);
    HalfEvenOfWhole(n);
    ScaledLess(n, MANTISSAS, b);
    assert n < MANTISSAS;
  }

  lemma MantissaBound(x: real, e: int)
    requires 0.0 <= x < Scaled(MANTISSAS, e)
    ensures 0 <= HalfEven(x / Power(2, e)) <= MANTISSAS
  {
    hide Power, HalfEven;
    var p := Power(2, e);
    Quotient(x, p);
    ScaledOrder(x / p, MANTISSAS as real, p);
    ScaledOrder(0.0, x / p, p);
    HalfEvenIsNear(x / p);
    HalfEvenGrows(x / p, MANTISSAS as real);
    HalfEvenOfWhole(MANTISSAS);
  }

  lemma TopIsDouble(e: int)
    ensures Scaled(MANTISSAS, e) == Scaled(MANTISSAS / 2, e + 1)
  {
    hide Power;
    PowerNext(2, e);
    Doubling((MANTISSAS / 2) as real, Power(2, e));
  }

  lemma Doubling(a: real, b: real)
    ensures 2.0 * a * b == a * (2.0 * b)
  {
  }

  lemma RoundIsDouble(x: real)
    requires x >= 0.0
    ensures Round(x).Some? ==> Round(x).value >= 0.0 && IsDouble(Round(x).value)
  {
    hide Power, HalfEven, BinaryExponent, Scaled;
    if Round(x).None? {
      return;
    }
    var e := BinaryExponent(x, LEAST);
    var m := HalfEven(x / Power(2, e));
    MantissaBound(x, e);
    NotNegative(m, e);
    if m == MANTISSAS {
      TopIsDouble(e);
      assert e + 1 <= GREATEST;
      assert Represents(MANTISSAS / 2, e + 1, Abs(Round(x).value));
    } else {
      assert Represents(m, e, Abs(Round(x).value));
    }
  }

  lemma NotNegative(m: nat, e: int)
    ensures Scaled(m, e) >= 0.0
  {
    hide Power;
  }

  lemma Distance(x: real, y: real, m: int, e: int)
    requires x == y * Power(2, e)
    ensures Abs(x - Scaled(m, e)) == Abs(y - m as real) * Power(2, e)
  {
    hide Power;
    var p := Power(2, e);
    Distributes(y, m as real, p);
    ScaledOrder(y, m as real, p);
  }

  lemma Distributes(a: real, b: real, p: real)
    ensures a * p - b * p == (a - b) * p
    ensures (b - a) * p == -((a - b) * p)
  {
  }

  /** No multiple of the power of two is nearer. */
  lemma NearestMultiple(x: real, y: real, e: int, n: int)
    requires x == y * Power(2, e)
    ensures Abs(x - Scaled(HalfEven(y), e)) <= Abs(x - Scaled(n, e))
  {
    hide Power, HalfEven, Scaled, Abs;
    HalfEvenIsNearest(y, n);
    Distance(x, y, n, e);
    Distance(x, y, HalfEven(y), e);
    ScaledOrder(Abs(y - HalfEven(y) as real), Abs(y - n as real), Power(2, e));
  }

  /** No double is nearer than the one a magnitude rounds to. */
  lemma RoundIsNearest(x: real, w: real)
    requires x >= 0.0 && Round(x).Some? && w >= 0.0 && IsDouble(w)
    ensures Abs(x - Round(x).value) <= Abs(x - w)
  {
    hide Power, HalfEven, BinaryExponent, Scaled, Represents;
    var e := BinaryExponent(x, LEAST);
    var n: nat, d: int :| Represents(n, d, w);
    RepresentedBy(n, d, w);
    var y := x / Power(2, e);
    Quotient(x, Power(2, e));
    assert x == y * Power(2, e);
    if e <= d {
      ScaledDown(n, d, e);
      var k: nat :| w == Scaled(k, e);
      NearestMultiple(x, y, e, k);
    } else {
      var t := Scaled(MANTISSAS, e - 1);
      assert t <= x;
      TopIsDouble(e - 1);
      NearestMultiple(x, y, e, MANTISSAS / 2);
      BelowTop(n, d, e - 1);
      assert w <= t;
    }
  }

  lemma RepresentedBy(m: nat, e: int, x: real)
    requires Represents(m, e, x)
    ensures m < MANTISSAS && LEAST <= e <= GREATEST && x == Scaled(m, e)
  {
  }

  lemma BelowTop(n: nat, d: int, e: int)
    requires n <= MANTISSAS && d <= e
    ensures Scaled(n, d) <= Scaled(MANTISSAS, e)
  {
    hide Power;
    PowerGrows(2, d, e);
    ScaledOrder(n as real, MANTISSAS as real, Power(2, d));
    ScaledOrder(Power(2, d), Power(2, e), MANTISSAS as real);
  }

  /** Rounding keeps the order. */
  lemma RoundGrows(x: real, z: real)
    requires 0.0 <= x <= z && Round(z).Some?
    ensures Round(x).Some? && Round(x).value <= Round(z).value
  {
    hide Power, HalfEven, BinaryExponent, Scaled, IsDouble;
    var d, e := BinaryExponent(x, LEAST), BinaryExponent(z, LEAST);
    assert d <= e;
    if d == GREATEST {
      var p := Power(2, d);
      QuotientOrder(x, z, p);
      HalfEvenGrows(x / p, z / p);
      MantissaBound(z, e);
    }
    assert Round(x).Some?;
    var v, w := Round(x).value, Round(z).value;
    RoundIsDouble(x);
    RoundIsDouble(z);
    RoundIsNearest(x, w);
    RoundIsNearest(z, v);
  }

  /** A magnitude overflows exactly from half a step beyond the greatest double on. */
  lemma OverflowIsExact(x: real)
    requires x >= 0.0
    ensures Round(x).None? <==> Scaled(2 * MANTISSAS - 1, GREATEST - 1) <= x
  {
    hide Power, HalfEven, BinaryExponent, Scaled;
    var e := BinaryExponent(x, LEAST);
    var g := GREATEST;
    var p := Power(2, g);
    Quotient(x, p);
    assert x / p * p == x;
    if x < Scaled(MANTISSAS, g) {
      TopHalf(x, x / p, g);
    }
    ScaledLess(2 * MANTISSAS - 1, 2 * MANTISSAS, g - 1);
    ScaledTwice(MANTISSAS, g - 1);
    if e < g {
      BelowTop(MANTISSAS, e, g - 1);
      ScaledLess(MANTISSAS, 2 * MANTISSAS - 1, g - 1);
    }
  }

  lemma ScaledTwice(m: int, e: int)
    ensures Scaled(2 * m, e) == Scaled(m, e + 1)
  {
    hide Power;
    PowerNext(2, e);
    Doubling(m as real, Power(2, e));
  }

  lemma TopHalf(x: real, y: real, e: int)
    requires 0.0 <= x < Scaled(MANTISSAS, e) && x == y * Power(2, e)
    ensures HalfEven(y) == MANTISSAS <==> Scaled(2 * MANTISSAS - 1, e - 1) <= x
  {
    hide Power, HalfEven;
    var q := Power(2, e - 1);
    PowerNext(2, e - 1);
    ScaledOrder(y, MANTISSAS as real, Power(2, e));
    HalfEvenAtTop(y);
    HalfStep(Scaled(2 * MANTISSAS - 1, e - 1), x, y, MANTISSAS as real, q);
  }

  lemma HalfEvenAtTop(y: real)
    requires y < MANTISSAS as real
    ensures HalfEven(y) == MANTISSAS <==> y >= MANTISSAS as real - 0.5
  {
  }

  lemma HalfStep(low: real, x: real, y: real, m: real, q: real)
    requires q > 0.0 && low == (2.0 * m - 1.0) * q && x == y * (2.0 * q)
    ensures low <= x <==> m - 0.5 <= y
  {
    Doubling(y, q);
    TwiceOrder(2.0 * m - 1.0, 2.0 * y, q, low, x);
  }

  lemma TwiceOrder(a: real, b: real, q: real, low: real, x: real)
    requires q > 0.0 && low == a * q && x == b * q
    ensures low <= x <==> a <= b
  {
    ScaledOrder(a, b, q);
  }
}
