/** How numbers are written, said of the numerals: Number::toString of ECMA-262. */
module JsonNumberLaws {
  import opened Prelude
  import opened Powers
  import opened Doubles
  import opened JsonGrammar
  import opened JsonNumber
  import Decimal

  /** Where the digits of a decimal put it among the powers of ten. */
  lemma SizeOf(d: Digits)
    requires d.s > 0
    ensures var n := d.j + |Decimal.Print(d.s)|; Power(10, n - 1) <= Decimals(d.s, d.j) < Power(10, n)
  {
    hide Power, WholePower, Decimal.Print, Decimals;
    var k := |Decimal.Print(d.s)|;
    Decimal.PrintLength(d.s);
    FewDigitsAreSmall(d.s, k, d.j);
    ManyDigitsAreLarge(d.s, k - 1, d.j);
  }

  lemma ManyDigitsAreLarge(s: nat, k: nat, j: int)
    requires WholePower(10, k) <= s
    ensures Power(10, k + j) <= Decimals(s, j)
  {
    hide Power;
    WholeTen(k);
    PowerAdd(10, k, j);
    ScaledOrder(Power(10, k), s as real, Power(10, j));
  }

  lemma SizeBounds(d: Digits, e: int)
    requires d.s > 0
    ensures Decimals(d.s, d.j) < Power(10, e) <==> d.j + |Decimal.Print(d.s)| <= e
  {
    hide Power, Decimals, Decimal.Print;
    SizeOf(d);
    var n := d.j + |Decimal.Print(d.s)|;
    if n <= e {
      PowerGrows(10, n, e);
    } else {
      PowerGrows(10, e, n - 1);
    }
  }

  lemma SomePowers()
    ensures Power(10, 0) == 1.0
    ensures Power(10, 21) == 1_000_000_000_000_000_000_000.0
    ensures Power(10, -6) == 0.000_001
  {
    assert WholePower(10, 6) == 1_000_000;
    assert WholePower(10, 21) == 1_000_000_000_000_000_000_000;
  }

  lemma LastDigit(s: nat)
    requires s % 10 != 0
    ensures var t := Decimal.Print(s); t[|t| - 1] != '0'
  {
    var t := Decimal.Print(s);
    Decimal.DigitChar(s % 10);
  }

  /** A digit text in code units, with its first and last units. */
  lemma AsciiEnds(s: string)
    requires Decimal.AllDigits(s) && s != ""
    ensures |Ascii(s)| == |s|
    ensures Ascii(s)[0] != 0x30 <==> s[0] != '0'
    ensures Ascii(s)[|s| - 1] != 0x30 <==> s[|s| - 1] != '0'
  {
    hide Ascii;
    assert Ascii(s)[0] as int == s[0] as int && Ascii(s)[|s| - 1] as int == s[|s| - 1] as int;
  }

  /**
   * Positional form for the sizes from a millionth up to, not including, ten to
   * the 21, and else one digit, its fraction and a signed exponent; no trailing
   * zero in a fraction.
   */
  lemma WrittenShape(x: Double)
    requires x != 0.0
    ensures
      var n := NumeralOf(x);
      && NumeralOk(n) && n.minus == (x < 0.0) && Round(Exact(n)) == Some(Abs(x))
      && (n.exponent.None? <==> 0.000_001 <= Exact(n) < 1_000_000_000_000_000_000_000.0)
      && (n.exponent.None? && Exact(n) < 1.0 ==> n.whole == [0x30])
      && (n.exponent.Some? ==>
        && |n.whole| == 1 && n.whole[0] != 0x30 && n.exponent.value.mark == 0x65
        && n.exponent.value.sign == (if Exact(n) < 1.0 then [0x2D] else [0x2B])
        && n.exponent.value.digits[0] != 0x30)
      && (n.fraction.Some? ==> n.fraction.value[|n.fraction.value| - 1] != 0x30)
  {
    hide Power, Decimals, Shortest, Layout, Exact, Round, NumeralOk, Decimal.Print;
    AbsIsDouble(x);
    var d := Shortest(Abs(x));
    ShortestReads(Abs(x));
    ShortestIsTrimmed(Abs(x));
    LayoutIsExact(d);
    SameReading(Layout(d), x < 0.0);
    SizeBounds(d, -6);
    SizeBounds(d, 0);
    SizeBounds(d, 21);
    SomePowers();
    LayoutShape(d);
  }

  lemma LayoutShape(d: Digits)
    requires d.s > 0 && d.s % 10 != 0
    ensures
      var n, size := Layout(d), d.j + |Decimal.Print(d.s)|;
      && (n.exponent.None? <==> -6 < size <= 21)
      && (n.exponent.None? && size <= 0 ==> n.whole == [0x30])
      && (n.exponent.Some? ==>
        && |n.whole| == 1 && n.whole[0] != 0x30 && n.exponent.value.mark == 0x65
        && n.exponent.value.sign == (if size <= 0 then [0x2D] else [0x2B])
        && n.exponent.value.digits != [] && n.exponent.value.digits[0] != 0x30)
      && (n.fraction.Some? ==> n.fraction.value != [] && n.fraction.value[|n.fraction.value| - 1] != 0x30)
  {
    hide Decimal.Print, Ascii;
    var t := Decimal.Print(d.s);
    var size := d.j + |t|;
    NoLeadingZero(d.s);
    LastDigit(d.s);
    if d.j >= 0 && size <= 21 {
    } else if 0 < size <= 21 {
      AsciiEnds(t[size..]);
    } else if -6 < size <= 0 {
      AsciiEnds(Decimal.Zeros(-size) + t);
      ZeroText();
    } else {
      AsciiEnds(t[..1]);
      var e := size - 1;
      var m: nat := if e < 0 then -e else e;
      NoLeadingZero(m);
      AsciiEnds(Decimal.Print(m));
      if |t| > 1 {
        AsciiEnds(t[1..]);
      }
    }
  }

  lemma ZeroText()
    ensures Ascii("0") == [0x30]
  {
    assert Ascii("0")[0] as int == "0"[0] as int;
  }

  // The digits.

  /** How many digits a numeral shows between its first and last that are not zero. */
  function SignificantDigits(n: Numeral): nat
    requires NumeralOk(n)
  {
    |Decimal.StripZeros(Decimal.Print(Decimal.Value(Chars(n.whole + FractionDigits(n)))))|
  }

  lemma StrippedPrint(d: Digits)
    requires d.s > 0
    ensures Decimal.StripZeros(Decimal.Print(d.s)) == Decimal.Print(Trimmed(d).s)
  {
    hide Decimal.Print, Trimmed;
    TrimmedPrints(d);
    var t := Trimmed(d);
    LastDigit(t.s);
    Decimal.StripUnique(Decimal.Print(d.s), Decimal.Print(t.s));
  }

  /** A numeral is its digits with a power of ten. */
  function DigitsOf(n: Numeral): Digits
    requires NumeralOk(n)
  {
    Digits(Decimal.Value(Chars(n.whole + FractionDigits(n))), ExponentOf(n) - |FractionDigits(n)|)
  }

  lemma DigitsRead(n: Numeral, x: Double)
    requires NumeralOk(n) && NumericOf(n) == Finite(x) && x != 0.0
    ensures var d := DigitsOf(n); d.s > 0 && RoundsTo(d.s, d.j, Abs(x)) && Decimals(d.s, d.j) == Exact(n)
  {
    hide Power, Round, Decimal.Value, Chars;
    RoundedIsDouble(n);
    AbsIsDouble(x);
    if DigitsOf(n).s == 0 {
      NoneFromZero(DigitsOf(n).j, Abs(x));
    }
  }

  /** Trimming a numeral's digits gives those it was written from. */
  lemma WrittenDigits(x: Double)
    requires x != 0.0
    ensures var n := NumeralOf(x);
      && NumeralOk(n) && NumericOf(n) == Finite(x)
      && SignificantDigits(n) == |Decimal.Print(Shortest(Abs(x)).s)|
      && Exact(n) == Decimals(Shortest(Abs(x)).s, Shortest(Abs(x)).j)
  {
    hide Power, Decimals, Shortest, Layout, Exact, Round, NumeralOk, Decimal.Print, Decimal.Value, Chars, DigitsOf,
      Trimmed;
    NumeralBack(x);
    AbsIsDouble(x);
    var n, v := NumeralOf(x), Abs(x);
    var d := Shortest(v);
    ShortestReads(v);
    ShortestIsTrimmed(v);
    LayoutIsExact(d);
    SameReading(Layout(d), x < 0.0);
    DigitsRead(n, x);
    var e := DigitsOf(n);
    TrimmedKeepsValue(e);
    TrimmedPrints(e);
    TrimmedIsUnique(d, Trimmed(e));
    StrippedPrint(e);
    DigitsOfIs(n);
  }

  lemma DigitsOfIs(n: Numeral)
    requires NumeralOk(n)
    ensures SignificantDigits(n) == |Decimal.StripZeros(Decimal.Print(DigitsOf(n).s))|
  {
  }

  /**
   * Of all the numerals that are read as a number the written one shows the
   * fewest digits, and of those with as few its value is nearest to the number.
   */
  lemma WrittenDigitsAreBest(x: Double, m: Numeral)
    requires x != 0.0 && NumeralOk(m) && NumericOf(m) == Finite(x)
    ensures
      var n := NumeralOf(x);
      && NumeralOk(n) && NumericOf(n) == Finite(x)
      && SignificantDigits(n) <= SignificantDigits(m)
      && (SignificantDigits(n) == SignificantDigits(m) ==> Abs(Abs(x) - Exact(n)) <= Abs(Abs(x) - Exact(m)))
  {
    hide Power, Decimals, Shortest, Exact, Round, NumeralOk, Decimal.Print, DigitsOf, Trimmed, SignificantDigits,
      NumeralOf, NumericOf;
    WrittenDigits(x);
    AbsIsDouble(x);
    DigitsRead(m, x);
    var e := DigitsOf(m);
    TrimmedKeepsValue(e);
    TrimmedPrints(e);
    StrippedPrint(e);
    DigitsOfIs(m);
    NothingShorter(Abs(x), Trimmed(e).s, Trimmed(e).j);
    if SignificantDigits(NumeralOf(x)) == SignificantDigits(m) {
      NothingNearer(Abs(x), Trimmed(e).s, Trimmed(e).j);
    }
  }
}
