/** Exact money texts: BigInt printing and parsing, and the six-place USDC decimals of the evidence scripts. */
module Decimal {
  import opened Powers
  import opened Prelude
  import opened Schemas

  function Digit(d: nat): (c: char)
    requires d < 10
    ensures IsDigit(c) && DigitValue(c) == d
  {
    (48 + d) as char
  }

  function DigitValue(c: char): (d: nat)
    requires IsDigit(c)
    ensures d < 10 && (48 + d) as char == c
  {
    c as int - 48
  }

  lemma DigitChar(d: nat)
    requires d < 10
    ensures Digit(d) as int == 48 + d
  {
  }

  predicate AllDigits(s: string) {
    forall c :: c in s ==> IsDigit(c)
  }

  /** `^(0|[1-9][0-9]*)$` */
  predicate IsBaseUnits(s: string) {
    s != "" && AllDigits(s) && (|s| > 1 ==> s[0] != '0')
  }

  /** `n.toString()` of a BigInt */
  function Print(n: nat): (s: string)
    ensures s != "" && AllDigits(s)
  {
    if n < 10 then [Digit(n)] else Print(n / 10) + [Digit(n % 10)]
  }

  /** `BigInt(s)` of a digit text */
  function Value(s: string): nat
    requires AllDigits(s)
  {
    if s == "" then 0 else 10 * Value(s[..|s| - 1]) + DigitValue(s[|s| - 1])
  }

  function ParseBaseUnits(s: string): Option<nat> {
    if IsBaseUnits(s) then Some(Value(s)) else None
  }

  lemma {:induction false} ParsePrinted(n: nat)
    ensures ParseBaseUnits(Print(n)) == Some(n)
    ensures Print(n)[0] == '0' ==> n == 0
  {
    if n >= 10 {
      ParsePrinted(n / 10);
      assert Print(n)[..|Print(n)| - 1] == Print(n / 10);
      assert Print(n)[0] == Print(n / 10)[0];
    } else {
      var s := Print(n);
      assert s == [Digit(n)] && s[..|s| - 1] == "";
      assert Value(s) == 10 * Value(s[..|s| - 1]) + DigitValue(s[0]);
    }
  }

  lemma {:induction false} PrintParsed(s: string)
    requires IsBaseUnits(s)
    ensures Print(Value(s)) == s
  {
    var front := s[..|s| - 1];
    assert s == front + [s[|s| - 1]];
    if front == "" {
    } else {
      assert front[0] == s[0];
      PrintParsed(front);
      PositiveValue(front);
    }
  }

  lemma {:induction false} PositiveValue(s: string)
    requires AllDigits(s) && s != "" && s[0] != '0'
    ensures Value(s) > 0
  {
    var front := s[..|s| - 1];
    if front == "" {
    } else {
      PositiveValue(front);
    }
  }

  lemma {:induction false} ValueJoined(a: string, b: string)
    requires AllDigits(a) && AllDigits(b)
    ensures Value(a + b) == Value(a) * WholePower(10, |b|) + Value(b)
  {
    if b == "" {
      assert a + b == a;
    } else {
      var front := b[..|b| - 1];
      assert (a + b)[..|a + b| - 1] == a + front;
      ValueJoined(a, front);
      TenTimes(Value(a), WholePower(10, |front|));
    }
  }

  lemma TenTimes(a: int, p: int)
    ensures a * (10 * p) == 10 * (a * p)
  {
  }

  /** A printed number has as many digits as its size says. */
  lemma {:induction false} PrintLength(n: nat)
    requires n > 0
    ensures WholePower(10, |Print(n)| - 1) <= n < WholePower(10, |Print(n)|)
  {
    if n < 10 {
      assert WholePower(10, 1) == 10 * WholePower(10, 0);
    } else {
      PrintLength(n / 10);
      var k := |Print(n / 10)|;
      assert |Print(n)| == k + 1;
      assert WholePower(10, k) == 10 * WholePower(10, k - 1);
      assert WholePower(10, k + 1) == 10 * WholePower(10, k);
    }
  }

  // Padding.

  function Zeros(k: nat): (z: string)
    ensures |z| == k && AllDigits(z) && forall i :: 0 <= i < k ==> z[i] == '0'
  {
    seq(k, _ => '0')
  }

  lemma {:induction false} ZerosAreZero(k: nat)
    ensures Value(Zeros(k)) == 0
  {
    if k == 0 {
    } else {
      ZerosAreZero(k - 1);
      assert Zeros(k)[..k - 1] == Zeros(k - 1);
    }
  }

  function PadStart(s: string, k: nat): string {
    if |s| < k then Zeros(k - |s|) + s else s
  }

  function PadEnd(s: string, k: nat): string {
    if |s| < k then s + Zeros(k - |s|) else s
  }

  /** `s.replace(/0+$/u, "")` */
  function StripZeros(s: string): (t: string)
    ensures t <= s && (t != "" ==> t[|t| - 1] != '0')
    ensures forall i :: |t| <= i < |s| ==> s[i] == '0'
  {
    if s != "" && s[|s| - 1] == '0' then StripZeros(s[..|s| - 1]) else s
  }

  lemma {:induction false} StripUnique(s: string, t: string)
    requires t <= s && (t != "" ==> t[|t| - 1] != '0')
    requires forall i :: |t| <= i < |s| ==> s[i] == '0'
    ensures StripZeros(s) == t
  {
    if s == "" || s[|s| - 1] != '0' {
    } else {
      StripUnique(s[..|s| - 1], t);
    }
  }

  lemma {:induction false} PadPrinted(d: string)
    requires AllDigits(d) && d != ""
    ensures PadStart(Print(Value(d)), |d|) == d
  {
    hide Print, Value;
    var front, c := d[..|d| - 1], d[|d| - 1];
    assert d == front + [c];
    ValueAppended(front, c);
    PrintAppended(Value(front), c);
    if front == "" {
      ValueOfNothing();
    } else {
      PadPrinted(front);
      if Value(front) == 0 {
        assert front == PadStart("0", |front|) == Zeros(|front|);
        assert Zeros(|d| - 1) + [c] == d;
      }
    }
  }

  lemma ValueAppended(front: string, c: char)
    requires AllDigits(front) && IsDigit(c)
    ensures Value(front + [c]) == 10 * Value(front) + DigitValue(c)
  {
    assert (front + [c])[..|front|] == front;
  }

  lemma ValueOfNothing()
    ensures Value("") == 0
  {
  }

  lemma PrintAppended(n: nat, c: char)
    requires IsDigit(c)
    ensures Print(10 * n + DigitValue(c)) == if n == 0 then [c] else Print(n) + [c]
    ensures Print(0) == "0"
  {
  }

  lemma {:induction false} ValueBelow(d: string, bound: nat)
    requires AllDigits(d) && |d| <= 6 && bound == [1, 10, 100, 1000, 10_000, 100_000, 1_000_000][|d|]
    ensures Value(d) < bound
  {
    if d == "" {
    } else {
      ValueBelow(d[..|d| - 1], [1, 10, 100, 1000, 10_000, 100_000, 1_000_000][|d| - 1]);
    }
  }

  // USDC texts.

  const USDC := 1_000_000

  /** toUsdcDecimal */
  function ToUsdcDecimal(baseUnits: nat): string {
    var fraction := StripZeros(PadStart(Print(baseUnits % USDC), 6));
    Pointed(Print(baseUnits / USDC), fraction)
  }

  /** The position of the first point, or the length of the text when it has none. */
  function PointIn(s: string): (i: nat)
    ensures i <= |s| && '.' !in s[..i] && (i < |s| ==> s[i] == '.')
  {
    if s == "" || s[0] == '.' then 0 else 1 + PointIn(s[1..])
  }

  function Whole(s: string): string { s[..PointIn(s)] }

  function Fraction(s: string): string {
    if PointIn(s) < |s| then s[PointIn(s) + 1..] else ""
  }

  /** DECIMAL_USDC: `^(?:0|[1-9][0-9]*)(?:\.[0-9]{1,6})?$` */
  predicate IsUsdcDecimal(s: string) {
    && IsBaseUnits(Whole(s))
    && AllDigits(Fraction(s))
    && (PointIn(s) < |s| ==> 1 <= |Fraction(s)| <= 6)
  }

  /** amountToBaseUnits */
  function AmountToBaseUnits(amount: string): Result<nat> {
    if !IsUsdcDecimal(amount) then Rejected
    else Ok(Value(Whole(amount)) * USDC + Value(PadEnd(Fraction(amount), 6)))
  }

  lemma {:induction false} PointAfter(whole: string, rest: string)
    requires '.' !in whole && (rest == "" || rest[0] == '.')
    ensures PointIn(whole + rest) == |whole|
  {
    if whole != "" {
      assert (whole + rest)[1..] == whole[1..] + rest;
      PointAfter(whole[1..], rest);
    } else {
      assert whole + rest == rest;
    }
  }

  function Pointed(whole: string, fraction: string): string {
    if fraction != "" then whole + "." + fraction else whole
  }

  lemma PointedParts(whole: string, fraction: string)
    requires AllDigits(whole)
    ensures Whole(Pointed(whole, fraction)) == whole && Fraction(Pointed(whole, fraction)) == fraction
    ensures PointIn(Pointed(whole, fraction)) < |Pointed(whole, fraction)| <==> fraction != ""
  {
    var s := Pointed(whole, fraction);
    if fraction != "" {
      assert s == whole + ("." + fraction);
      PointAfter(whole, "." + fraction);
    } else {
      assert s == whole + "";
      PointAfter(whole, "");
    }
  }

  lemma PadStripped(cents: string)
    requires |cents| == 6
    ensures PadEnd(StripZeros(cents), 6) == cents
  {
  }

  /** Printing and then reading gives back every amount. */
  lemma DecimalReadsBack(n: nat)
    ensures AmountToBaseUnits(ToUsdcDecimal(n)) == Ok(n)
  {
    var whole, cents := Print(n / USDC), PadStart(Print(n % USDC), 6);
    var fraction := StripZeros(cents);
    ParsePrinted(n / USDC);
    SixDigits(n % USDC);
    PointedParts(whole, fraction);
    PadStripped(cents);
    assert ToUsdcDecimal(n) == Pointed(whole, fraction);
    hide Whole, Fraction, PointIn, PadEnd, PadStart, Print, StripZeros, Value, Pointed, ToUsdcDecimal;
  }

  lemma SixDigits(m: nat)
    requires m < USDC
    ensures |PadStart(Print(m), 6)| == 6 && AllDigits(PadStart(Print(m), 6)) && Value(PadStart(Print(m), 6)) == m
  {
    PrintedLength(m);
    ParsePrinted(m);
    ValueOfPadded(Print(m), 6 - |Print(m)|);
  }

  lemma PrintedLength(m: nat)
    requires m < USDC
    ensures |Print(m)| <= 6
  {
    assert |Print(m)| == if m < 10 then 1 else 1 + |Print(m / 10)|;
    var a := m / 10;
    assert |Print(a)| == if a < 10 then 1 else 1 + |Print(a / 10)|;
    var b := a / 10;
    assert |Print(b)| == if b < 10 then 1 else 1 + |Print(b / 10)|;
    var c := b / 10;
    assert |Print(c)| == if c < 10 then 1 else 1 + |Print(c / 10)|;
    var d := c / 10;
    assert |Print(d)| == if d < 10 then 1 else 1 + |Print(d / 10)|;
  }

  lemma {:induction false} ValueOfPadded(s: string, k: nat)
    requires AllDigits(s)
    ensures AllDigits(Zeros(k) + s) && Value(Zeros(k) + s) == Value(s)
    decreases |s| + k
  {
    if s != "" {
      ValueOfPadded(s[..|s| - 1], k);
      assert (Zeros(k) + s)[..k + |s| - 1] == Zeros(k) + s[..|s| - 1];
    } else if k > 0 {
      ValueOfPadded(s, k - 1);
      assert (Zeros(k) + s)[..k - 1] == Zeros(k - 1) + s;
    }
  }

  /** A text without its trailing fractional zeros, and without the point when no fraction is left. */
  function Normal(s: string): string {
    Pointed(Whole(s), StripZeros(Fraction(s)))
  }

  lemma CentsFit(s: string)
    requires IsUsdcDecimal(s)
    ensures |Fraction(s)| <= 6 && |PadEnd(Fraction(s), 6)| == 6 && AllDigits(PadEnd(Fraction(s), 6))
    ensures StripZeros(PadEnd(Fraction(s), 6)) == StripZeros(Fraction(s))
  {
    StripUnique(PadEnd(Fraction(s), 6), StripZeros(Fraction(s)));
  }

  lemma WholeAndCents(whole: nat, cents: nat)
    requires cents < USDC
    ensures (whole * USDC + cents) / USDC == whole && (whole * USDC + cents) % USDC == cents
  {
  }

  /** Reading and then printing gives the text without trailing fractional zeros. */
  lemma DecimalPrintsBack(s: string)
    requires IsUsdcDecimal(s)
    ensures ToUsdcDecimal(AmountToBaseUnits(s).value) == Normal(s)
  {
    CentsFit(s);
    hide Value, Print, Whole, Fraction, PointIn, Pointed, PadEnd, PadStart, StripZeros;
    var cents := PadEnd(Fraction(s), 6);
    ValueBelow(cents, USDC);
    WholeAndCents(Value(Whole(s)), Value(cents));
    PrintParsed(Whole(s));
    PadPrinted(cents);
  }

  /** Two accepted texts mean the same amount exactly when they differ only in trailing fractional zeros. */
  lemma SameAmountSameText(s: string, t: string)
    requires IsUsdcDecimal(s) && IsUsdcDecimal(t)
    ensures AmountToBaseUnits(s) == AmountToBaseUnits(t) <==> Normal(s) == Normal(t)
  {
    DecimalPrintsBack(s);
    DecimalPrintsBack(t);
    DecimalReadsBack(AmountToBaseUnits(s).value);
    DecimalReadsBack(AmountToBaseUnits(t).value);
  }

  lemma {:induction false} TenTo(k: nat)
    requires k <= 6
    ensures WholePower(10, k) == [1, 10, 100, 1000, 10_000, 100_000, 1_000_000][k]
  {
    if k == 0 {
    } else {
      TenTo(k - 1);
    }
  }

  /** Filling up a fraction shifts its value. */
  lemma PaddedValue(fraction: string)
    requires AllDigits(fraction) && |fraction| <= 6
    ensures |PadEnd(fraction, 6)| == 6 && AllDigits(PadEnd(fraction, 6))
    ensures Value(PadEnd(fraction, 6)) * WholePower(10, |fraction|) == Value(fraction) * 1_000_000
  {
    var k := 6 - |fraction|;
    ZerosAreZero(k);
    ValueJoined(fraction, Zeros(k));
    assert PadEnd(fraction, 6) == fraction + Zeros(k);
    TenTo(k);
    TenTo(|fraction|);
    hide Value, WholePower;
    Shifted(Value(fraction), WholePower(10, k), WholePower(10, |fraction|));
  }

  lemma Shifted(v: int, a: int, b: int)
    requires a * b == 1_000_000
    ensures (v * a) * b == v * 1_000_000
  {
    assert (v * a) * b == v * (a * b);
  }

  /**
   * What an amount text means: digits without a point are whole USDC; with a point
   * there must be one to six digits after it, and the text is that decimal number,
   * in millionths. Nothing else with one point or none is accepted.
   */
  lemma AmountIsItsDecimalValue(whole: string, fraction: string)
    requires (forall c :: c in whole ==> '0' <= c <= '9') && (forall c :: c in fraction ==> '0' <= c <= '9')
    ensures
      var plain := AmountToBaseUnits(whole);
      && (plain.Ok? <==> whole != "" && (|whole| > 1 ==> whole[0] != '0'))
      && (plain.Ok? ==> plain.value == Value(whole) * 1_000_000)
    ensures
      var pointed := AmountToBaseUnits(whole + "." + fraction);
      && (pointed.Ok? <==> whole != "" && (|whole| > 1 ==> whole[0] != '0') && 1 <= |fraction| <= 6)
      && (pointed.Ok? ==> pointed.value * WholePower(10, |fraction|) == Value(whole + fraction) * 1_000_000)
  {
    assert AllDigits(whole) && AllDigits(fraction) && AllDigits(whole + fraction);
    PointedParts(whole, "");
    PlainAmount(whole);
    if fraction != "" {
      PointedParts(whole, fraction);
      PointedAmount(whole, fraction);
    } else {
      assert whole + "." + fraction == whole + ".";
      PointAfter(whole, ".");
    }
  }

  lemma PlainAmount(whole: string)
    requires AllDigits(whole) && Whole(whole) == whole && Fraction(whole) == "" && PointIn(whole) == |whole|
    ensures AmountToBaseUnits(whole).Ok? <==> IsBaseUnits(whole)
    ensures AmountToBaseUnits(whole).Ok? ==> AmountToBaseUnits(whole).value == Value(whole) * 1_000_000
  {
    hide Whole, Fraction, PointIn;
    ZerosAreZero(6);
    assert PadEnd("", 6) == Zeros(6);
    hide Value, PadEnd;
  }

  lemma PointedAmount(whole: string, fraction: string)
    requires AllDigits(whole) && AllDigits(fraction) && fraction != ""
    requires Whole(whole + "." + fraction) == whole && Fraction(whole + "." + fraction) == fraction
    requires PointIn(whole + "." + fraction) < |whole + "." + fraction|
    ensures
      var pointed := AmountToBaseUnits(whole + "." + fraction);
      && (pointed.Ok? <==> IsBaseUnits(whole) && 1 <= |fraction| <= 6)
      && (pointed.Ok? ==> pointed.value * WholePower(10, |fraction|) == Value(whole + fraction) * 1_000_000)
  {
    hide Whole, Fraction, PointIn, Value, PadEnd, WholePower;
    if IsBaseUnits(whole) && |fraction| <= 6 {
      PaddedValue(fraction);
      ValueJoined(whole, fraction);
      var p, w, f := WholePower(10, |fraction|), Value(whole), Value(PadEnd(fraction, 6));
      assert AmountToBaseUnits(whole + "." + fraction) == Ok(w * 1_000_000 + f);
      Distributed(w, f, p, Value(fraction));
    }
  }

  lemma Distributed(w: int, f: int, p: int, v: int)
    requires f * p == v * 1_000_000
    ensures (w * 1_000_000 + f) * p == (w * p + v) * 1_000_000
  {
  }
}
