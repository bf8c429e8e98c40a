/**
 * JSON's numbers on the platform: a numeral is read as the double next to its
 * exact value, and a double is written with the fewest digits that read back to
 * it (Number::toString of ECMA-262, section 3.2.2.3 of RFC 8785).
 */
module JsonNumber {
  import opened Prelude
  import opened Powers
  import opened Doubles
  import opened JsonGrammar
  import Decimal

  // Digits as code units and as characters.

  function Chars(digits: Text): (s: string)
    requires AllDigits(digits)
    ensures |s| == |digits| && Decimal.AllDigits(s) && forall i :: 0 <= i < |s| ==> s[i] as int == digits[i]
  {
    if digits == [] then ""
    else
      assert Digit(digits[0]);
      Decimal.DigitChar(digits[0] - 0x30);
      [Decimal.Digit(digits[0] - 0x30)] + Chars(digits[1..])
  }

  function Ascii(s: string): (digits: Text)
    requires Decimal.AllDigits(s)
    ensures |s| == |digits| && AllDigits(digits) && forall i :: 0 <= i < |s| ==> s[i] as int == digits[i]
  {
    if s == "" then []
    else
      assert s[0] in s;
      var u: Unit := s[0] as int;
      [u] + Ascii(s[1..])
  }

  lemma CharsOfAscii(a: string, b: string)
    requires Decimal.AllDigits(a) && Decimal.AllDigits(b)
    ensures Chars(Ascii(a) + Ascii(b)) == a + b
    ensures Chars(Ascii(a)) == a
  {
    forall i | 0 <= i < |a + b| ensures Chars(Ascii(a) + Ascii(b))[i] == (a + b)[i] {
      assert Chars(Ascii(a) + Ascii(b))[i] as int == (a + b)[i] as int;
    }
    forall i | 0 <= i < |a| ensures Chars(Ascii(a))[i] == a[i] {
      assert Chars(Ascii(a))[i] as int == a[i] as int;
    }
  }

  // Reading.

  function FractionDigits(n: Numeral): (t: Text)
    requires NumeralOk(n)
    ensures AllDigits(t)
  {
    if n.fraction.Some? then n.fraction.value else []
  }

  function ExponentOf(n: Numeral): int
    requires NumeralOk(n)
  {
    if n.exponent.None? then 0
    else
      var e: int := Decimal.Value(Chars(n.exponent.value.digits));
      if n.exponent.value.sign == [MINUS] then -e else e
  }

  /** The number `s` times ten to the `j`. */
  function Decimals(s: nat, j: int): real { s as real * Power(10, j) }

  /** The exact value of a numeral, without its sign. */
  function Exact(n: Numeral): real
    requires NumeralOk(n)
  {
    var fraction := FractionDigits(n);
    Decimals(Decimal.Value(Chars(n.whole + fraction)), ExponentOf(n) - |fraction|)
  }

  /** A JavaScript number. */
  datatype Numeric = Finite(value: Double) | MinusZero | Infinite(minus: bool) | NotANumber

  lemma RoundedIsDouble(n: Numeral)
    requires NumeralOk(n)
    ensures Round(Exact(n)).Some? ==> var y := Round(Exact(n)).value; y >= 0.0 && IsDouble(y) && IsDouble(-y)
  {
    hide Power, Round, Decimal.Value, Chars;
    if Round(Exact(n)).None? {
      return;
    }
    DecimalsPositive(Decimal.Value(Chars(n.whole + FractionDigits(n))), ExponentOf(n) - |FractionDigits(n)|);
    RoundIsDouble(Exact(n));
    Negated(Round(Exact(n)).value);
  }

  lemma DecimalsPositive(s: nat, j: int)
    ensures Decimals(s, j) >= 0.0
    ensures s > 0 ==> Decimals(s, j) > 0.0
  {
    hide Power;
  }

  lemma Negated(y: real)
    requires IsDouble(y)
    ensures IsDouble(-y)
  {
    hide Represents;
    var m: nat, e: int :| Represents(m, e, Abs(y));
    assert Abs(-y) == Abs(y);
  }

  /** The number a numeral is read as. */
  function NumericOf(n: Numeral): Numeric {
    if !NumeralOk(n) then NotANumber
    else
      match Round(Exact(n))
      case None => Infinite(n.minus)
      case Some(y) =>
        RoundedIsDouble(n);
        if !n.minus then Finite(y) else if y == 0.0 then MinusZero else Finite(-y)
  }

  // Writing: the digits.

  predicate RoundsTo(s: nat, j: int, v: real) {
    Round(Decimals(s, j)) == Some(v)
  }

  lemma {:induction false} FiveTwoTen(e: int)
    requires e <= 0
    ensures Power(2, e) == WholePower(5, -e) as real * Power(10, e)
    decreases -e
  {
    hide Power;
    if e == 0 {
      PowerZero(2);
      PowerZero(10);
    } else {
      FiveTwoTen(e + 1);
      PowerNext(2, e);
      PowerNext(10, e);
      WholeTimes(5, WholePower(5, -e - 1));
      Halved(Power(2, e), WholePower(5, -e - 1) as real, Power(10, e));
    }
  }

  lemma Halved(a: real, b: real, c: real)
    requires 2.0 * a == b * (10.0 * c)
    ensures a == 5.0 * b * c
  {
  }

  /** Every double is a decimal with 1074 places. */
  lemma DecimalPlaces(v: real)
    requires IsDouble(v) && v > 0.0
    ensures exists s: nat :: v == Decimals(s, LEAST)
  {
    hide Power, WholePower, Represents;
    var m: nat, e: int :| Represents(m, e, v);
    RepresentedBy(m, e, v);
    ScaledDown(m, e, LEAST);
    var n: nat :| v == Scaled(n, LEAST);
    FiveTwoTen(LEAST);
    var f := WholePower(5, -LEAST);
    Spread(n, f, Power(10, LEAST), v);
    assert v == Decimals(n * f, LEAST);
  }

  lemma Spread(n: nat, f: nat, p: real, v: real)
    requires p > 0.0
    requires v == n as real * (f as real * p)
    ensures v == (n * f) as real * p
  {
    WholeTimes(n, f);
    Regroup(n as real, f as real, p);
  }

  lemma QuotientPositive(a: real, p: real)
    requires a >= 0.0 && p > 0.0
    ensures a / p >= 0.0
  {
  }

  /** Digits and the power of ten they count. */
  datatype Digits = Digits(s: nat, j: int)

  /** How many of ten to the `j` go into `v`. */
  function Low(v: real, j: int): (low: nat)
    requires v > 0.0
  {
    QuotientPositive(v, Power(10, j));
    (v / Power(10, j)).Floor
  }

  /** Of the two neighbours of `v` at ten to the `j`, one that reads back; the nearer one when both do. */
  function Candidate(v: real, j: int): Option<Digits>
    requires v > 0.0
  {
    var low := Low(v, j);
    if RoundsTo(low, j, v) && (HalfEven(v / Power(10, j)) == low || !RoundsTo(low + 1, j, v)) then Some(Digits(low, j))
    else if RoundsTo(low + 1, j, v) then Some(Digits(low + 1, j))
    else None
  }

  /** No double reaches ten to this power. */
  const BEYOND := 1000

  lemma {:induction false} PowersCompare(e: int)
    ensures e <= 0 ==> Power(10, e) <= Power(2, e)
    ensures e >= 0 ==> Power(2, e) <= Power(10, e)
    decreases if e < 0 then -e else e
  {
    hide Power;
    if e == 0 {
      PowerZero(2);
      PowerZero(10);
    } else if e < 0 {
      PowersCompare(e + 1);
      PowerNext(2, e);
      PowerNext(10, e);
    } else {
      PowersCompare(e - 1);
      PowerNext(2, e - 1);
      PowerNext(10, e - 1);
    }
  }

  lemma SixteenDigits()
    ensures MANTISSAS as real <= Power(10, 16)
  {
    assert WholePower(10, 4) == 10_000;
    PowerAdd(10, 4, 4);
    PowerAdd(10, 8, 8);
    assert Power(10, 4) == 10_000.0;
  }

  lemma TenRange(v: real)
    requires IsDouble(v) && v > 0.0
    ensures Power(10, LEAST) <= v < Power(10, BEYOND)
  {
    hide Power, Represents;
    var m: nat, e: int :| Represents(m, e, v);
    RepresentedBy(m, e, v);
    ScaledRange(m, e);
    PowersCompare(LEAST);
    PowersCompare(GREATEST);
    PowerGrows(2, LEAST, e);
    PowerGrows(2, e, GREATEST);
    SixteenDigits();
    PowerAdd(10, 16, GREATEST);
    PowerGrows(10, 16 + GREATEST, BEYOND);
    BothBelow(MANTISSAS as real, Power(10, 16), Power(2, e), Power(10, GREATEST));
  }

  lemma ScaledRange(m: nat, e: int)
    requires 0 < m < MANTISSAS || Scaled(m, e) > 0.0
    ensures Power(2, e) <= Scaled(m, e)
    ensures m < MANTISSAS ==> Scaled(m, e) < MANTISSAS as real * Power(2, e)
  {
    hide Power;
    var p := Power(2, e);
    assert m >= 1;
    ScaledOrder(1.0, m as real, p);
    assert 1.0 * p == p;
    ScaledOrder(m as real, MANTISSAS as real, p);
  }

  lemma BothBelow(a: real, b: real, c: real, d: real)
    requires 0.0 <= a <= b && 0.0 < c <= d
    ensures a * c <= b * d
  {
  }

  /** How many digits `v` has before its point, from `n` on. */
  function TenExponent(v: real, n: int): int
    decreases BEYOND - n, v
  {
    if n >= BEYOND || v < Power(10, n) then n else TenExponent(v, n + 1)
  }

  lemma {:induction false} TenExponentIsExact(v: real, n: int)
    requires Power(10, n - 1) <= v < Power(10, BEYOND) && n <= BEYOND
    ensures var r := TenExponent(v, n); n <= r && Power(10, r - 1) <= v < Power(10, r)
    decreases BEYOND - n
  {
    hide Power;
    if n == BEYOND || v < Power(10, n) {
    } else {
      TenExponentIsExact(v, n + 1);
    }
  }

  /** The candidate with the largest `j`, from `j` downwards. */
  function Search(v: real, j: int): Digits
    requires v > 0.0
    decreases j - LEAST, v
  {
    match Candidate(v, j)
    case Some(d) => d
    case None => if j <= LEAST then Digits(0, j) else Search(v, j - 1)
  }

  lemma {:induction false} SearchIsFirst(v: real, j: int)
    requires IsDouble(v) && v > 0.0 && j >= LEAST
    ensures var d := Search(v, j);
      d.j <= j && Candidate(v, d.j) == Some(d) && forall i :: d.j < i <= j ==> Candidate(v, i).None?
    decreases j - LEAST
  {
    hide Candidate, IsDouble;
    if Candidate(v, j).Some? {
      CandidateAt(v, j);
    } else {
      PlacesSuffice(v);
      SearchIsFirst(v, j - 1);
    }
  }

  lemma CandidateAt(v: real, j: int)
    requires v > 0.0
    ensures Candidate(v, j).Some? ==> Candidate(v, j).value.j == j
  {
    hide Power, RoundsTo, Low;
  }

  lemma PlacesSuffice(v: real)
    requires IsDouble(v) && v > 0.0
    ensures Candidate(v, LEAST).Some?
  {
    hide Power, Round, HalfEven;
    DecimalPlaces(v);
    var s: nat :| v == Decimals(s, LEAST);
    WholeQuotient(s, Power(10, LEAST), v);
    DoublesStay(v);
  }

  lemma WholeQuotient(s: nat, p: real, v: real)
    requires p > 0.0 && v == s as real * p
    ensures (v / p).Floor == s
  {
    Quotient(s as real, p);
    assert v / p == s as real;
  }

  /** Without its trailing zeros. */
  function Trimmed(d: Digits): Digits
    decreases d.s
  {
    if d.s == 0 || d.s % 10 != 0 then d else Trimmed(Digits(d.s / 10, d.j + 1))
  }

  lemma {:induction false} TrimmedKeepsValue(d: Digits)
    requires d.s > 0
    ensures var t := Trimmed(d); t.s > 0 && Decimals(t.s, t.j) == Decimals(d.s, d.j)
    decreases d.s
  {
    hide Decimals;
    if d.s % 10 != 0 {
    } else {
      TenfoldDecimals(d.s / 10, d.j);
      TrimmedKeepsValue(Digits(d.s / 10, d.j + 1));
    }
  }

  lemma TenfoldDecimals(s: nat, j: int)
    ensures Decimals(10 * s, j) == Decimals(s, j + 1)
  {
    hide Power;
    PowerNext(10, j);
    Moved(s as real, Power(10, j));
  }

  lemma Moved(a: real, p: real)
    ensures 10.0 * a * p == a * (10.0 * p)
  {
  }

  lemma NoneFromZero(j: int, v: real)
    requires v > 0.0 && IsDouble(v)
    ensures !RoundsTo(0, j, v)
  {
    hide Round, Power;
    ZeroIsDouble();
    DoublesStay(0.0);
  }

  /** The digits of a positive double. */
  function Shortest(v: real): Digits
    requires v > 0.0
  {
    Trimmed(Search(v, TenExponent(v, LEAST + 1) - 1))
  }

  lemma Found(v: real) returns (n: int, d: Digits)
    requires IsDouble(v) && v > 0.0
    ensures Power(10, n - 1) <= v < Power(10, n) && d == Search(v, n - 1) && Shortest(v) == Trimmed(d)
    ensures d.s > 0 && d.j < n && Candidate(v, d.j) == Some(d)
    ensures forall i :: d.j < i < n ==> Candidate(v, i).None?
  {
    hide Power, Candidate, Search, IsDouble, TenExponent;
    n := TenExponent(v, LEAST + 1);
    TenRange(v);
    TenExponentIsExact(v, LEAST + 1);
    d := Search(v, n - 1);
    SearchIsFirst(v, n - 1);
    CandidateReads(v, d);
    if d.s == 0 {
      NoneFromZero(d.j, v);
    }
  }

  lemma CandidateReads(v: real, d: Digits)
    requires v > 0.0
    ensures Candidate(v, d.j) == Some(d) ==> RoundsTo(d.s, d.j, v)
  {
    hide RoundsTo, Low;
  }

  lemma ShortestReads(v: real)
    requires IsDouble(v) && v > 0.0
    ensures var d := Shortest(v); d.s > 0 && RoundsTo(d.s, d.j, v)
  {
    hide Power, Shortest, Candidate, IsDouble, Round, Decimals;
    var n, d := Found(v);
    CandidateReads(v, d);
    TrimmedKeepsValue(d);
  }

  // No shorter digits read back, and none as short are nearer.

  lemma Between(v: real, a: real, b: real)
    requires IsDouble(v) && v > 0.0 && 0.0 <= a && 0.0 <= b && Round(a) == Some(v)
    requires a <= b <= v || v <= b <= a
    ensures Round(b) == Some(v)
  {
    hide Round, IsDouble;
    DoublesStay(v);
    if a <= b <= v {
      RoundGrows(b, v);
      RoundGrows(a, b);
    } else {
      RoundGrows(b, a);
      RoundGrows(v, b);
    }
  }

  lemma WholeTen(k: nat)
    ensures Power(10, k) == WholePower(10, k) as real
  {
  }

  lemma FewDigitsAreSmall(s: nat, k: nat, i: int)
    requires s < WholePower(10, k)
    ensures Decimals(s, i) < Power(10, k + i)
  {
    hide Power;
    WholeTen(k);
    PowerAdd(10, k, i);
    ScaledOrder(s as real, Power(10, k), Power(10, i));
  }

  /** A decimal of few enough digits that is not too small is a multiple of the power of ten. */
  lemma OnGrid(s: nat, i: int, n: int, j: int)
    requires j <= n && s < WholePower(10, n - j) && Power(10, n - 1) <= Decimals(s, i)
    ensures exists q: nat :: Decimals(s, i) == Decimals(q, j)
  {
    hide Power;
    if i < j {
      FewDigitsAreSmall(s, n - j, i);
      PowerGrows(10, n - j + i, n - 1);
      assert false;
    } else {
      var p := WholePower(10, i - j);
      WholeTen(i - j);
      PowerAdd(10, i - j, j);
      WholeTimes(s, p);
      Regroup(s as real, p as real, Power(10, j));
      assert Decimals(s, i) == Decimals(s * p, j);
    }
  }

  lemma LowIsFloor(v: real, j: int, q: nat)
    requires v > 0.0
    ensures Decimals(q, j) <= v <==> q <= Low(v, j)
  {
    hide Power;
    var p := Power(10, j);
    var y := v / p;
    Quotient(v, p);
    FloorOf(y, q);
    QuotientCompare(q as real, v, p);
  }

  lemma FloorOf(y: real, q: int)
    ensures q as real <= y <==> q <= y.Floor
  {
  }

  lemma QuotientCompare(a: real, v: real, p: real)
    requires p > 0.0
    ensures a * p <= v <==> a <= v / p
  {
    Quotient(v, p);
    ScaledOrder(a, v / p, p);
  }

  lemma DecimalsGrow(a: nat, b: nat, j: int)
    ensures a <= b <==> Decimals(a, j) <= Decimals(b, j)
  {
    hide Power;
    ScaledOrder(a as real, b as real, Power(10, j));
  }

  /** Whatever reads back as `v` lies no nearer to it than the neighbour on its side, which reads back too. */
  lemma NeighbourReads(v: real, n: int, j: int, s: nat, i: int)
    requires IsDouble(v) && v > 0.0 && Power(10, n - 1) <= v && j < n
    requires s < WholePower(10, n - j) && RoundsTo(s, i, v)
    ensures var low := Low(v, j);
      if Decimals(s, i) <= v then Decimals(s, i) <= Decimals(low, j) <= v && RoundsTo(low, j, v)
      else v < Decimals(low + 1, j) <= Decimals(s, i) && RoundsTo(low + 1, j, v)
  {
    hide Power, Round, IsDouble, Decimals, Low;
    var low, w := Low(v, j), Decimals(s, i);
    LowIsFloor(v, j, low);
    LowIsFloor(v, j, low + 1);
    DecimalsPositive(s, i);
    DecimalsPositive(low, j);
    DecimalsPositive(low + 1, j);
    if w < Power(10, n - 1) {
      TenOnGrid(n - 1, j);
      var q := WholePower(10, n - 1 - j);
      LowIsFloor(v, j, q);
      DecimalsGrow(q, low, j);
    } else {
      OnGrid(s, i, n, j);
      var q: nat :| w == Decimals(q, j);
      LowIsFloor(v, j, q);
      if w <= v {
        DecimalsGrow(q, low, j);
      } else {
        DecimalsGrow(low + 1, q, j);
      }
    }
    Between(v, w, if w <= v then Decimals(low, j) else Decimals(low + 1, j));
  }

  lemma TenOnGrid(e: int, j: int)
    requires j <= e
    ensures Decimals(WholePower(10, e - j), j) == Power(10, e)
  {
    hide Power;
    WholeTen(e - j);
    PowerAdd(10, e - j, j);
  }

  lemma {:induction false} WholeGrows(base: nat, d: nat, e: nat)
    requires base > 0 && d <= e
    ensures WholePower(base, d) <= WholePower(base, e)
    decreases e
  {
    if d == e {
    } else {
      WholeGrows(base, d, e - 1);
    }
  }

  lemma DigitsAtMost(s: nat, m: nat)
    requires 0 < s < WholePower(10, m)
    ensures |Decimal.Print(s)| <= m
  {
    hide Decimal.Print;
    Decimal.PrintLength(s);
    if m < |Decimal.Print(s)| {
      WholeGrows(10, m, |Decimal.Print(s)| - 1);
    }
  }

  lemma {:induction false} TrimmedLength(d: Digits, m: nat)
    requires 0 < d.s <= WholePower(10, m) && m > 0
    ensures |Decimal.Print(Trimmed(d).s)| <= m
    decreases m
  {
    hide Decimal.Print;
    if d.s < WholePower(10, m) {
      TrimmedIsSmaller(d);
      DigitsAtMost(Trimmed(d).s, m);
    } else {
      assert d.s == 10 * WholePower(10, m - 1);
      var e := Digits(WholePower(10, m - 1), d.j + 1);
      assert Trimmed(d) == Trimmed(e);
      if m > 1 {
        TrimmedLength(e, m - 1);
      } else {
        assert WholePower(10, 1) == 10 * WholePower(10, 0);
        assert Trimmed(e) == e;
        DigitsAtMost(1, 1);
      }
    }
  }

  lemma {:induction false} TrimmedIsSmaller(d: Digits)
    requires d.s > 0
    ensures 0 < Trimmed(d).s <= d.s
    decreases d.s
  {
    if d.s % 10 != 0 {
    } else {
      TrimmedIsSmaller(Digits(d.s / 10, d.j + 1));
    }
  }

  lemma CandidateExists(v: real, j: int)
    requires v > 0.0
    ensures RoundsTo(Low(v, j), j, v) || RoundsTo(Low(v, j) + 1, j, v) ==> Candidate(v, j).Some?
  {
    hide Power, RoundsTo, HalfEven, Low;
  }

  lemma CandidateIsNearest(v: real, j: int, d: Digits)
    requires v > 0.0 && Candidate(v, j) == Some(d)
    ensures d.j == j && d.s in {Low(v, j), Low(v, j) + 1}
    ensures RoundsTo(Low(v, j), j, v) ==> Abs(v - Decimals(d.s, j)) <= Abs(v - Decimals(Low(v, j), j))
    ensures RoundsTo(Low(v, j) + 1, j, v) ==> Abs(v - Decimals(d.s, j)) <= Abs(v - Decimals(Low(v, j) + 1, j))
  {
    hide Power, RoundsTo, Decimals, HalfEven, Abs;
    var low := Low(v, j);
    HalfEvenIsNear(v / Power(10, j));
    HalfEvenDecides(v, j, low);
    HalfEvenDecides(v, j, low + 1);
  }

  lemma HalfEvenDecides(v: real, j: int, s: nat)
    requires v > 0.0
    ensures var h := HalfEven(v / Power(10, j)); h >= 0 && Abs(v - Decimals(h, j)) <= Abs(v - Decimals(s, j))
  {
    hide Power, Decimals, HalfEven, Abs;
    var p := Power(10, j);
    var y := v / p;
    QuotientPositive(v, p);
    HalfEvenIsNear(y);
    HalfEvenIsNearest(y, s);
    Quotient(v, p);
    DecimalDistance(v, y, s, j);
    DecimalDistance(v, y, HalfEven(y), j);
    ScaledOrder(Abs(y - HalfEven(y) as real), Abs(y - s as real), p);
  }

  lemma DecimalDistance(v: real, y: real, s: nat, j: int)
    requires v == y * Power(10, j)
    ensures Abs(v - Decimals(s, j)) == Abs(y - s as real) * Power(10, j)
  {
    hide Power;
    var p := Power(10, j);
    Distributes(y, s as real, p);
    ScaledOrder(y, s as real, p);
  }

  lemma CandidateIsSmall(v: real, n: int, j: int)
    requires 0.0 < v < Power(10, n) && j <= n
    ensures Low(v, j) < WholePower(10, n - j)
  {
    hide Power, Low, Decimals;
    LowIsFloor(v, j, WholePower(10, n - j));
    TenOnGrid(n, j);
  }

  /** The search has stopped before it needs more digits than any decimal that reads back. */
  lemma StopsInTime(v: real, n: int, d: Digits, s: nat, i: int)
    requires IsDouble(v) && v > 0.0 && Power(10, n - 1) <= v && RoundsTo(s, i, v) && s > 0
    requires forall g :: d.j < g < n ==> Candidate(v, g).None?
    ensures n - d.j <= |Decimal.Print(s)|
  {
    hide Power, RoundsTo, Decimals, IsDouble, Candidate, Low, Decimal.Print;
    var k := |Decimal.Print(s)|;
    if d.j < n - k {
      Decimal.PrintLength(s);
      NeighbourReads(v, n, n - k, s, i);
      CandidateExists(v, n - k);
    }
  }

  /** No decimal with fewer digits reads back as `v`... */
  lemma NothingShorter(v: real, s: nat, i: int)
    requires IsDouble(v) && v > 0.0 && RoundsTo(s, i, v)
    ensures |Decimal.Print(Shortest(v).s)| <= |Decimal.Print(s)|
  {
    hide Power, RoundsTo, Decimals, IsDouble, Candidate, Low, Decimal.Print, Shortest;
    var n, d := Found(v);
    SearchedLength(v, n, d);
    if s == 0 {
      NoneFromZero(i, v);
    }
    StopsInTime(v, n, d, s, i);
  }

  lemma SearchedLength(v: real, n: int, d: Digits)
    requires 0.0 < v < Power(10, n) && d.j < n && d.s > 0
    ensures Candidate(v, d.j) == Some(d) ==> |Decimal.Print(Trimmed(d).s)| <= n - d.j
  {
    hide Power, RoundsTo, Decimals, Candidate, Low, Decimal.Print, Trimmed;
    if Candidate(v, d.j) != Some(d) {
      return;
    }
    CandidateIsNearest(v, d.j, d);
    CandidateIsSmall(v, n, d.j);
    TrimmedLength(d, n - d.j);
  }

  /** ... and none with as few digits is nearer to it. */
  lemma NothingNearer(v: real, s: nat, i: int)
    requires IsDouble(v) && v > 0.0 && RoundsTo(s, i, v)
    requires |Decimal.Print(s)| <= |Decimal.Print(Shortest(v).s)|
    ensures var d := Shortest(v); Abs(v - Decimals(d.s, d.j)) <= Abs(v - Decimals(s, i))
  {
    hide Power, RoundsTo, Decimals, IsDouble, Candidate, Low, Decimal.Print, Shortest, Trimmed;
    var n, d := Found(v);
    SearchedLength(v, n, d);
    if s == 0 {
      NoneFromZero(i, v);
    }
    StopsInTime(v, n, d, s, i);
    Decimal.PrintLength(s);
    NeighbourReads(v, n, d.j, s, i);
    CandidateIsNearest(v, d.j, d);
    TrimmedKeepsValue(d);
  }

  // Writing: the layout.

  function Plain(whole: string): Numeral
    requires Decimal.AllDigits(whole)
  {
    Numeral(false, Ascii(whole), None, None)
  }

  function Pointed(whole: string, fraction: string): Numeral
    requires Decimal.AllDigits(whole) && Decimal.AllDigits(fraction)
  {
    Numeral(false, Ascii(whole), Some(Ascii(fraction)), None)
  }

  const LETTER_E: Unit := 0x65

  function Exponential(digits: string, e: int): Numeral
    requires Decimal.AllDigits(digits) && digits != ""
  {
    Numeral(false, Ascii(digits[..1]), if |digits| == 1 then None else Some(Ascii(digits[1..])),
      Some(Exponent(LETTER_E, if e < 0 then [MINUS] else [PLUS], Ascii(Decimal.Print(if e < 0 then -e else e)))))
  }

  /** Where Number::toString puts the point, and from which sizes on it writes an exponent. */
  function Layout(d: Digits): Numeral {
    var t := Decimal.Print(d.s);
    var n := d.j + |t|;
    if d.j >= 0 && n <= 21 then Plain(t + Decimal.Zeros(d.j))
    else if 0 < n <= 21 then Pointed(t[..n], t[n..])
    else if -6 < n <= 0 then Pointed("0", Decimal.Zeros(-n) + t)
    else Exponential(t, n - 1)
  }

  function NumeralOf(x: Double): Numeral {
    if x == 0.0 then Plain("0")
    else
      AbsIsDouble(x);
      Layout(Shortest(Abs(x))).(minus := x < 0.0)
  }

  lemma AbsIsDouble(x: real)
    requires IsDouble(x)
    ensures IsDouble(Abs(x))
  {
    hide Represents;
    var m: nat, e: int :| Represents(m, e, Abs(x));
    assert Abs(Abs(x)) == Abs(x);
  }

  lemma NoLeadingZero(s: nat)
    requires s > 0
    ensures var t := Decimal.Print(s); t[0] != '0' && Decimal.Value(t) == s
  {
    Decimal.ParsePrinted(s);
  }

  lemma WholeIsOk(whole: string)
    requires Decimal.IsBaseUnits(whole)
    ensures WholeOk(Ascii(whole)) && Decimal.AllDigits(whole)
  {
    assert Ascii(whole)[0] as int == whole[0] as int;
  }

  lemma PlainExact(whole: string)
    requires Decimal.IsBaseUnits(whole)
    ensures NumeralOk(Plain(whole)) && Exact(Plain(whole)) == Decimals(Decimal.Value(whole), 0)
  {
    hide Decimals, Decimal.Value, Chars, Ascii, WholeOk, Decimal.IsBaseUnits;
    WholeIsOk(whole);
    CharsOfAscii(whole, "");
    assert Ascii(whole) + [] == Ascii(whole);
  }

  lemma PointedExact(whole: string, fraction: string)
    requires Decimal.IsBaseUnits(whole) && Decimal.AllDigits(fraction) && fraction != ""
    ensures var n := Pointed(whole, fraction);
      NumeralOk(n) && Exact(n) == Decimals(Decimal.Value(whole + fraction), -|fraction|)
  {
    hide Decimals, Decimal.Value, Chars, Ascii, WholeOk, Decimal.IsBaseUnits;
    WholeIsOk(whole);
    CharsOfAscii(whole, fraction);
  }

  lemma ExponentDigits(e: int)
    ensures var size := Ascii(Decimal.Print(if e < 0 then -e else e));
      size != [] && Decimal.Value(Chars(size)) == if e < 0 then -e else e
  {
    hide Decimal.Value, Chars, Ascii, Decimal.Print;
    var m: nat := if e < 0 then -e else e;
    Decimal.ParsePrinted(m);
    CharsOfAscii(Decimal.Print(m), "");
  }

  lemma ExponentialOk(digits: string, e: int)
    requires Decimal.AllDigits(digits) && digits != ""
    ensures NumeralOk(Exponential(digits, e)) && ExponentOf(Exponential(digits, e)) == e
  {
    hide Decimal.Value, Chars, Ascii, Decimal.Print;
    ExponentDigits(e);
    assert [MINUS] != [PLUS];
  }

  lemma ExponentialDigits(digits: string, e: int)
    requires Decimal.AllDigits(digits) && digits != "" && NumeralOk(Exponential(digits, e))
    ensures var n := Exponential(digits, e);
      |FractionDigits(n)| == |digits| - 1 && Chars(n.whole + FractionDigits(n)) == digits
  {
    hide Decimal.Value, Chars, Ascii, Decimal.Print, NumeralOk;
    var first, rest := digits[..1], digits[1..];
    CharsOfAscii(first, rest);
    assert first + rest == digits;
    if rest == "" {
      assert first == digits;
      assert Ascii(digits) + [] == Ascii(digits);
    }
  }

  lemma ExponentialExact(digits: string, e: int)
    requires Decimal.AllDigits(digits) && digits != ""
    ensures var n := Exponential(digits, e);
      NumeralOk(n) && Exact(n) == Decimals(Decimal.Value(digits), e - |digits| + 1)
  {
    hide Decimals, Decimal.Value, Chars, Ascii, Decimal.Print, NumeralOk, ExponentOf, FractionDigits, Exponential;
    ExponentialOk(digits, e);
    ExponentialDigits(digits, e);
  }

  /** Wherever the point goes, the numeral's exact value is that of the digits. */
  lemma LayoutIsExact(d: Digits)
    requires d.s > 0
    ensures NumeralOk(Layout(d)) && Exact(Layout(d)) == Decimals(d.s, d.j)
  {
    hide Power, Decimals, Decimal.Value, Decimal.Print, Exact, NumeralOk, Plain, Pointed, Exponential;
    var t := Decimal.Print(d.s);
    var n := d.j + |t|;
    NoLeadingZero(d.s);
    if d.j >= 0 && n <= 21 {
      PlainExact(t + Decimal.Zeros(d.j));
      AppendedZeros(t, d.j);
      TenfoldTimes(d.s, d.j);
    } else if 0 < n <= 21 {
      assert t[..n] + t[n..] == t;
      PointedExact(t[..n], t[n..]);
    } else if -6 < n <= 0 {
      var z := Decimal.Zeros(-n);
      PointedExact("0", z + t);
      assert "0" + (z + t) == Decimal.Zeros(1 - n) + t;
      LeadingZeros(1 - n, t);
    } else {
      ExponentialExact(t, n - 1);
    }
  }

  lemma AppendedZeros(t: string, k: nat)
    requires Decimal.AllDigits(t)
    ensures Decimal.Value(t + Decimal.Zeros(k)) == Decimal.Value(t) * WholePower(10, k)
  {
    hide Decimal.Value;
    Decimal.ValueJoined(t, Decimal.Zeros(k));
    Decimal.ZerosAreZero(k);
  }

  lemma LeadingZeros(k: nat, t: string)
    requires Decimal.AllDigits(t)
    ensures Decimal.Value(Decimal.Zeros(k) + t) == Decimal.Value(t)
  {
    hide Decimal.Value;
    Decimal.ValueJoined(Decimal.Zeros(k), t);
    Decimal.ZerosAreZero(k);
  }

  lemma TenfoldTimes(s: nat, j: nat)
    ensures Decimals(s * WholePower(10, j), 0) == Decimals(s, j)
  {
    WholeTimes(s, WholePower(10, j));
    PowerZero(10);
  }

  lemma SameReading(n: Numeral, minus: bool)
    requires NumeralOk(n)
    ensures var m := n.(minus := minus); NumeralOk(m) && Exact(m) == Exact(n)
  {
    hide Power, Decimal.Value, Chars;
  }

  /** A printed double is a well-formed numeral, and reads back as that double. */
  lemma NumeralBack(x: Double)
    ensures NumeralOk(NumeralOf(x)) && NumericOf(NumeralOf(x)) == Finite(x)
  {
    hide Power, Decimal.Value, Chars, Exact, Round, NumeralOk, Layout, Plain;
    if x == 0.0 {
      ZeroReads(x);
    } else {
      AbsIsDouble(x);
      var d := Shortest(Abs(x));
      ShortestReads(Abs(x));
      LayoutIsExact(d);
      SameReading(Layout(d), x < 0.0);
    }
  }

  lemma ZeroReads(x: Double)
    requires x == 0.0
    ensures NumeralOk(Plain("0")) && NumericOf(Plain("0")) == Finite(x)
  {
    hide Power, Round;
    PlainExact("0");
    assert Decimal.Value("0") == 0 by {
      assert "0"[..0] == "";
    }
    DoublesStay(x);
    assert Decimals(0, 0) == 0.0;
  }

  lemma MinusZeroReads()
    ensures var n := Plain("0").(minus := true); NumeralOk(n) && NumericOf(n) == MinusZero
  {
    hide Power, Round, Plain, Exact, NumeralOk;
    ZeroReads(ZERO);
    SameReading(Plain("0"), true);
  }

  // Safe integers.

  lemma WholesAreDoubles(i: nat)
    requires i <= MANTISSAS
    ensures IsDouble(i as real) && Round(i as real) == Some(i as real)
  {
    hide Round;
    PowerZero(2);
    if i == MANTISSAS {
      TopIsDouble(0);
      assert Represents(MANTISSAS / 2, 1, Abs(i as real));
    } else {
      assert Represents(i, 0, Abs(i as real));
    }
    DoublesStay(i as real);
  }

  lemma SameDecimals(s: nat, i: int, t: nat, j: int)
    requires Decimals(s, i) == Decimals(t, j) && i <= j
    ensures s == t * WholePower(10, j - i)
  {
    hide Power;
    var p := WholePower(10, j - i);
    WholeTen(j - i);
    PowerAdd(10, j - i, i);
    WholeTimes(t, p);
    Regroup(t as real, p as real, Power(10, i));
    CancelRight(s as real, (t * p) as real, Power(10, i));
  }

  lemma CancelRight(a: real, b: real, p: real)
    requires p > 0.0 && a * p == b * p
    ensures a == b
  {
  }

  lemma TenDivides(t: nat, k: nat)
    requires k > 0
    ensures t * WholePower(10, k) % 10 == 0 && t * WholePower(10, k) >= t
  {
    var p := WholePower(10, k - 1);
    TenfoldProduct(t, p);
    assert WholePower(10, k) == 10 * p;
  }

  lemma TenfoldProduct(t: nat, p: nat)
    requires p > 0
    ensures t * (10 * p) == 10 * (t * p) && 10 * (t * p) % 10 == 0 && t * p >= t
  {
  }

  /** Digits without trailing zeros are fixed by their value, and no digits of that value are fewer. */
  lemma TrimmedIsUnique(d: Digits, e: Digits)
    requires Decimals(d.s, d.j) == Decimals(e.s, e.j) && d.s % 10 != 0
    ensures e.j <= d.j && d.s <= e.s && (e.s % 10 != 0 ==> d == e)
  {
    hide Decimals, WholePower;
    if d.j < e.j {
      SameDecimals(d.s, d.j, e.s, e.j);
      TenDivides(e.s, e.j - d.j);
    } else {
      SameDecimals(e.s, e.j, d.s, d.j);
      if e.j < d.j {
        TenDivides(d.s, d.j - e.j);
      } else {
        OneTimes(d.s);
      }
    }
  }

  lemma OneTimes(s: nat)
    ensures s * WholePower(10, 0) == s
  {
  }

  lemma {:induction false} TrimmedPrints(d: Digits)
    requires d.s > 0
    ensures var t := Trimmed(d);
      t.s > 0 && t.s % 10 != 0 && t.j >= d.j && Decimal.Print(d.s) == Decimal.Print(t.s) + Decimal.Zeros(t.j - d.j)
    decreases d.s
  {
    if d.s % 10 == 0 {
      var e := Digits(d.s / 10, d.j + 1);
      TrimmedPrints(e);
      var k := Trimmed(d).j - e.j;
      assert Decimal.Print(d.s) == Decimal.Print(e.s) + [Decimal.Digit(0)];
      assert Decimal.Zeros(k + 1) == Decimal.Zeros(k) + ['0'];
    } else {
      assert Decimal.Zeros(0) == "";
    }
  }

  lemma {:induction false} PrintGrows(a: nat, b: nat)
    requires a <= b
    ensures |Decimal.Print(a)| <= |Decimal.Print(b)|
    decreases b
  {
    if a < 10 || b < 10 {
    } else {
      PrintGrows(a / 10, b / 10);
    }
  }

  /** No decimal with fewer digits than a safe integer, its trailing zeros apart, is read as that integer. */
  lemma IntegersNeedTheirDigits(i: nat, s: nat, j: int)
    requires 0 < i < MANTISSAS
    ensures RoundsTo(s, j, i as real) ==> |Decimal.Print(Trimmed(Digits(i, 0)).s)| <= |Decimal.Print(s)|
  {
    hide Power, Decimals, Round, IsDouble, Trimmed, WholePower, Decimal.Print;
    if !RoundsTo(s, j, i as real) {
      return;
    }
    var d := Trimmed(Digits(i, 0));
    var w, k := Decimals(s, j), |Decimal.Print(s)|;
    TrimmedPrints(Digits(i, 0));
    TrimmedKeepsValue(Digits(i, 0));
    WholeDecimals(i, 0);
    DecimalsPositive(s, j);
    WholesAreDoubles(i);
    if j >= 0 {
      var m := s * WholePower(10, j);
      WholeDecimals(s, j);
      if m < MANTISSAS {
        WholesAreDoubles(m);
        TrimmedIsUnique(d, Digits(s, j));
        PrintGrows(d.s, s);
      } else {
        WholesAreDoubles(MANTISSAS);
        RoundGrows(MANTISSAS as real, w);
      }
    } else if k < |Decimal.Print(d.s)| {
      NoneFromZeroAt(i, s, j);
      var n := |Decimal.Print(i)|;
      Decimal.PrintLength(i);
      Decimal.PrintLength(s);
      FewDigitsAreSmall(s, k, j);
      PowerGrows(10, k + j, n - 2);
      WholeTen(n - 2);
      WholeStep(n - 2);
      var p := WholePower(10, n - 2);
      assert p < i;
      WholesAreDoubles(p);
      RoundGrows(w, p as real);
    }
  }

  lemma WholeDecimals(s: nat, j: nat)
    ensures Decimals(s, j) == (s * WholePower(10, j)) as real
    ensures j == 0 ==> Decimals(s, j) == s as real
  {
    WholeTen(j);
    WholeTimes(s, WholePower(10, j));
  }

  lemma NoneFromZeroAt(i: nat, s: nat, j: int)
    requires 0 < i < MANTISSAS && RoundsTo(s, j, i as real)
    ensures s > 0
  {
    hide RoundsTo;
    WholesAreDoubles(i);
    if s == 0 {
      NoneFromZero(j, i as real);
    }
  }

  lemma WholeStep(k: nat)
    ensures WholePower(10, k) < WholePower(10, k + 1)
  {
  }

  /** A safe integer is written as its plain decimal digits. */
  lemma SafeIntegerIsPlain(i: int, x: Double)
    requires -MANTISSAS < i < MANTISSAS && x == i as real
    ensures NumeralOf(x) == Plain(Decimal.Print(if i < 0 then -i else i)).(minus := i < 0)
  {
    hide Shortest, Decimals, RoundsTo, Trimmed, IsDouble, Decimal.Print, Plain, Layout;
    var m: nat := if i < 0 then -i else i;
    if m == 0 {
      PrintZero();
    } else {
      PlainLayout(m);
      assert Abs(x) == m as real;
    }
  }

  lemma PrintZero()
    ensures Decimal.Print(0) == "0" && Plain("0") == Plain("0").(minus := false)
  {
  }

  lemma PlainLayout(m: nat)
    requires 0 < m < MANTISSAS
    ensures Layout(Shortest(m as real)) == Plain(Decimal.Print(m))
  {
    hide Shortest, Decimals, RoundsTo, Trimmed, IsDouble, Decimal.Print, Plain;
    TrimmedPrints(Digits(m, 0));
    PlainDigits(m);
    AtMostSixteen(m);
  }

  lemma AtMostSixteen(m: nat)
    requires 0 < m < MANTISSAS
    ensures |Decimal.Print(m)| <= 16
  {
    hide Decimal.Print;
    SixteenDigits();
    WholeTen(16);
    DigitsAtMost(m, 16);
  }

  lemma PlainDigits(m: nat)
    requires 0 < m < MANTISSAS
    ensures Trimmed(Digits(m, 0)) == Shortest(m as real)
  {
    hide Shortest, Decimals, Round, Trimmed, IsDouble, Decimal.Print;
    var v := m as real;
    var d, e := Trimmed(Digits(m, 0)), Shortest(v);
    WholesAreDoubles(m);
    WholeDecimals(m, 0);
    TrimmedKeepsValue(Digits(m, 0));
    TrimmedPrints(Digits(m, 0));
    ShortestReads(v);
    IntegersNeedTheirDigits(m, e.s, e.j);
    NothingNearer(v, d.s, d.j);
    ShortestIsTrimmed(v);
    TrimmedIsUnique(d, e);
  }

  lemma ShortestIsTrimmed(v: real)
    requires IsDouble(v) && v > 0.0
    ensures Shortest(v).s % 10 != 0
  {
    hide Power, Shortest, Candidate, IsDouble, Trimmed, Decimal.Print;
    var n, d := Found(v);
    TrimmedPrints(d);
  }
}
