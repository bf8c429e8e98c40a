/**
 * What strict parsing makes of a text, unit by unit and without syntax trees:
 * white space, words, strings, numerals, arrays and objects of RFC 8259.
 */
module JsonLaws {
  import opened Prelude
  import opened JsonGrammar
  import opened JsonScan
  import opened JsonValue
  import JsonAccepting
  import JsonNumber

  /** The tree that a text has when it denotes a value. */
  ghost predicate HasTree(t: Text, p: Padded, v: Json) {
    t == PaddedText(p) && PaddedOk(p, true) && KeysDistinct(p.tree) && v == ValueOf(p.tree)
  }

  lemma TreeOf(t: Text, v: Json) returns (p: Padded)
    requires Denotes(t, v)
    ensures HasTree(t, p, v)
  {
    hide PaddedText, PaddedOk, KeysDistinct, ValueOf;
    p :| t == PaddedText(p) && PaddedOk(p, true) && KeysDistinct(p.tree) && v == ValueOf(p.tree);
  }

  /** A text that the scanner cannot read denotes nothing. */
  lemma UnreadIsRefused(t: Text, v: Json)
    requires ScanText(t, false).None?
    ensures !Denotes(t, v)
  {
    hide PaddedText, PaddedOk, KeysDistinct, ValueOf, ScanText;
    if Denotes(t, v) {
      var p := TreeOf(t, v);
      StrictIsLenientPadded(p);
      JsonAccepting.ScanIsExact(t, p, false);
    }
  }

  /** White space around a tree shows at the ends of the text. */
  lemma EndsOf(p: Padded)
    requires PaddedOk(p, true)
    ensures
      var t := PaddedText(p);
      && (p.before != [] ==> t[0] in {0x20, 0x09, 0x0A, 0x0D})
      && (p.after != [] ==> t != [] && t[|t| - 1] in {0x20, 0x09, 0x0A, 0x0D})
      && (p.before == [] ==> t == TreeText(p.tree) + p.after)
      && (p.before == [] && p.after == [] ==> t == TreeText(p.tree))
  {
    hide TreeText, TreeOk;
    if p.before != [] {
      assert p.before[0] in p.before;
    }
    if p.after != [] {
      assert p.after[|p.after| - 1] in p.after;
    }
    assert p.before == [] ==> PaddedText(p) == TreeText(p.tree) + p.after;
  }

  // White space.

  /** Space, tab, line feed and carriage return may stand before and after any text. */
  lemma WhiteSpaceAround(w: Unit, t: Text, v: Json)
    requires Denotes(t, v) && w in {0x20, 0x09, 0x0A, 0x0D}
    ensures Denotes([w] + t, v) && Denotes(t + [w], v)
  {
    hide TreeText, TreeOk, KeysDistinct, ValueOf;
    var p := TreeOf(t, v);
    var q, r := p.(before := [w] + p.before), p.(after := p.after + [w]);
    assert [w] + t == PaddedText(q) && t + [w] == PaddedText(r);
    assert PaddedOk(q, true) && PaddedOk(r, true);
  }

  /** The units that a tree's text can begin with. */
  lemma TreeBegins(t: Tree)
    requires TreeOk(t, true)
    ensures TreeText(t) != []
    ensures
      var u := TreeText(t)[0];
      match t
      case Word(_) => u in {0x66, 0x6E, 0x74}
      case Num(_) => u == 0x2D || 0x30 <= u <= 0x39
      case Str(_) => u == 0x22
      case EmptyArr(_) | Arr(_) => u == 0x5B
      case EmptyObj(_) | Obj(_) => u == 0x7B
  {
    hide PaddedOk, EntryOk, ItemsText, EntriesText, PiecesText, PiecesOk, FractionText, ExponentText;
    if t.Num? {
      assert t.numeral.whole[0] in t.numeral.whole;
    }
  }

  /**
   * A text that denotes anything begins with white space or with one of these units: no other white
   * space is skipped.
   */
  lemma FirstUnit(t: Text, v: Json)
    requires Denotes(t, v)
    ensures t != []
    ensures t[0] in {0x20, 0x09, 0x0A, 0x0D, 0x22, 0x2D, 0x5B, 0x66, 0x6E, 0x74, 0x7B} || 0x30 <= t[0] <= 0x39
  {
    hide TreeText, TreeOk, KeysDistinct, ValueOf;
    var p := TreeOf(t, v);
    TreeBegins(p.tree);
    EndsOf(p);
  }

  // Words.

  lemma WordsAreExact(v: Json)
    ensures Denotes([0x74, 0x72, 0x75, 0x65], v) <==> v == Bool(true)
    ensures Denotes([0x66, 0x61, 0x6C, 0x73, 0x65], v) <==> v == Bool(false)
    ensures Denotes([0x6E, 0x75, 0x6C, 0x6C], v) <==> v == Json.Null
  {
    OneTree([0x74, 0x72, 0x75, 0x65], Word(True), Bool(true), v);
    OneTree([0x66, 0x61, 0x6C, 0x73, 0x65], Word(False), Bool(false), v);
    OneTree([0x6E, 0x75, 0x6C, 0x6C], Word(Literal.Null), Json.Null, v);
  }

  /** The text of a tree denotes its value and no other. */
  lemma OneTree(t: Text, tree: Tree, w: Json, v: Json)
    requires t == TreeText(tree) && TreeOk(tree, true) && KeysDistinct(tree) && w == ValueOf(tree)
    ensures Denotes(t, v) <==> v == w
  {
    hide TreeText, TreeOk, KeysDistinct, ValueOf;
    var p := Padded([], tree, []);
    assert t == PaddedText(p) && PaddedOk(p, true);
    assert Denotes(t, w);
    if Denotes(t, v) {
      DenotesOne(t, v, w);
    }
  }

  // Strings.

  lemma OnePieceTree(p: Piece, v: Json)
    requires PieceOk(p)
    ensures Denotes([0x22] + PieceText(p) + [0x22], v) <==> v == String([Decode(p)])
  {
    hide PieceOk, PieceText, Decode;
    assert PiecesText([p]) == PieceText(p) + [];
    assert DecodeAll([p]) == [Decode(p)] + [];
    OneTree([0x22] + PieceText(p) + [0x22], Str([p]), String([Decode(p)]), v);
  }

  /** What the reading of a string does with the units after its quote, when it fails. */
  lemma UnreadString(rest: Text, v: Json)
    requires ScanPieces(rest).None? || (ScanPieces(rest).value.1 != [] && !White(ScanPieces(rest).value.1[0]))
    ensures !Denotes([0x22] + rest, v)
  {
    hide ScanPieces, ScanObject, ScanArray, ScanAtom;
    var t := [0x22] + rest;
    assert t[1..] == rest;
    assert SplitWhite(t) == ([], t);
    assert ScanPadded(t, false).None? || ScanPadded(t, false).value.1 != [];
    UnreadIsRefused(t, v);
  }

  /** Any unit from 0x20 on stands for itself, but for the quote and the backslash. */
  lemma PlainUnit(u: Unit, v: Json)
    ensures Denotes([0x22, u, 0x22], v) <==> u >= 0x20 && u != 0x22 && u != 0x5C && v == String([u])
  {
    var rest: Text := [u, 0x22];
    assert [0x22] + [u] + [0x22] == [0x22, u, 0x22] == [0x22] + rest;
    if u >= 0x20 && u != 0x22 && u != 0x5C {
      OnePieceTree(Raw(u), v);
    } else {
      assert rest[1..] == [0x22] && rest[2..] == [];
      UnreadString(rest, v);
    }
  }

  /** The eight letters after a backslash, and what they stand for. */
  const ESCAPES: map<Unit, Unit> :=
    map[0x22 := 0x22, 0x5C := 0x5C, 0x2F := 0x2F, 0x62 := 0x08, 0x66 := 0x0C, 0x6E := 0x0A, 0x72 := 0x0D, 0x74 := 0x09]

  lemma LetterEscape(letter: Unit, v: Json)
    ensures Denotes([0x22, 0x5C, letter, 0x22], v) <==> letter in ESCAPES && v == String([ESCAPES[letter]])
  {
    var rest: Text := [0x5C, letter, 0x22];
    assert [0x22] + [0x5C, letter] + [0x22] == [0x22, 0x5C, letter, 0x22] == [0x22] + rest;
    if letter in ESCAPES {
      OnePieceTree(Short(letter), v);
    } else {
      UnreadString(rest, v);
    }
  }

  predicate Hexadecimal(u: Unit) { 0x30 <= u <= 0x39 || 0x41 <= u <= 0x46 || 0x61 <= u <= 0x66 }

  function Sixteenths(u: Unit): int {
    if u <= 0x39 then u - 0x30 else if u <= 0x46 then u - 0x37 else u - 0x57
  }

  lemma OneDigit(u: Unit)
    ensures HexDigit(u) <==> Hexadecimal(u)
    ensures HexDigit(u) ==> HexValue(u) == Sixteenths(u)
  {
  }

  lemma FourDigits(d: Text)
    requires |d| == 4
    ensures PieceOk(Hex(d)) <==> Hexadecimal(d[0]) && Hexadecimal(d[1]) && Hexadecimal(d[2]) && Hexadecimal(d[3])
    ensures PieceOk(Hex(d)) ==>
      Decode(Hex(d)) == Sixteenths(d[0]) * 4096 + Sixteenths(d[1]) * 256 + Sixteenths(d[2]) * 16 + Sixteenths(d[3])
  {
    hide HexDigit, HexValue, Hexadecimal, Sixteenths;
    forall i | 0 <= i < 4 ensures d[i] in d && (HexDigit(d[i]) <==> Hexadecimal(d[i])) {
      OneDigit(d[i]);
    }
    OneDigit(d[0]);
    OneDigit(d[1]);
    OneDigit(d[2]);
    OneDigit(d[3]);
    if Hexadecimal(d[0]) && Hexadecimal(d[1]) && Hexadecimal(d[2]) && Hexadecimal(d[3]) {
      forall u | u in d ensures HexDigit(u) {
        var i :| 0 <= i < 4 && d[i] == u;
      }
    }
  }

  lemma UnreadHex(d: Text, rest: Text)
    requires |d| == 4 && !PieceOk(Hex(d)) && rest == [0x5C, 0x75] + d + [0x22]
    ensures ScanPieces(rest).None?
  {
    hide PieceOk;
    assert rest[2..6] == d;
  }

  /** Four hexadecimal digits after `\u`, in either case, are one unit. */
  lemma HexEscape(a: Unit, b: Unit, c: Unit, d: Unit, v: Json)
    ensures Denotes([0x22, 0x5C, 0x75, a, b, c, d, 0x22], v) <==>
      && Hexadecimal(a) && Hexadecimal(b) && Hexadecimal(c) && Hexadecimal(d)
      && v == String([Sixteenths(a) * 4096 + Sixteenths(b) * 256 + Sixteenths(c) * 16 + Sixteenths(d)])
  {
    hide Denotes, PieceOk, Decode, ScanPieces, Sixteenths, Hexadecimal;
    var digits: Text := [a, b, c, d];
    var rest: Text := [0x5C, 0x75] + digits + [0x22];
    var t: Text := [0x22, 0x5C, 0x75, a, b, c, d, 0x22];
    FourDigits(digits);
    assert t == [0x22] + rest;
    if PieceOk(Hex(digits)) {
      OnePieceTree(Hex(digits), v);
      assert t == [0x22] + PieceText(Hex(digits)) + [0x22];
    } else {
      UnreadHex(digits, rest);
      UnreadString(rest, v);
    }
  }

  lemma {:induction false} PiecesJoined(ps: seq<Piece>, qs: seq<Piece>)
    ensures PiecesText(ps + qs) == PiecesText(ps) + PiecesText(qs)
    ensures DecodeAll(ps + qs) == DecodeAll(ps) + DecodeAll(qs)
  {
    hide PieceText, Decode;
    if ps == [] {
      assert ps + qs == qs;
    } else {
      assert (ps + qs)[1..] == ps[1..] + qs;
      PiecesJoined(ps[1..], qs);
    }
  }

  /** The pieces of a text in quotes that denotes a string. */
  lemma QuotedPieces(x: Text, s: Text) returns (ps: seq<Piece>)
    requires Denotes([0x22] + x + [0x22], String(s))
    ensures PiecesOk(ps) && PiecesText(ps) == x && DecodeAll(ps) == s
  {
    hide PiecesText, DecodeAll, PiecesOk;
    var t := [0x22] + x + [0x22];
    var p := TreeOf(t, String(s));
    ps := p.tree.pieces;
    EndsOf(p);
    assert p.before == [] && p.after == [];
    assert t[1..|t| - 1] == x && t[1..|t| - 1] == PiecesText(ps);
  }

  /** The insides of two strings written one after the other are the inside of their concatenation. */
  lemma StringsConcatenate(x: Text, y: Text, r: Text, s: Text)
    requires Denotes([0x22] + x + [0x22], String(r)) && Denotes([0x22] + y + [0x22], String(s))
    ensures Denotes([0x22] + (x + y) + [0x22], String(r + s))
  {
    var ps := QuotedPieces(x, r);
    var qs := QuotedPieces(y, s);
    PiecesJoined(ps, qs);
    hide PiecesText, DecodeAll;
    assert PiecesOk(ps + qs);
    OneTree([0x22] + (x + y) + [0x22], Str(ps + qs), String(r + s), String(r + s));
  }

  // Numerals.

  predicate Decimals(t: Text) {
    t != [] && forall i :: 0 <= i < |t| ==> 0x30 <= t[i] <= 0x39
  }

  /** An optional minus, a whole part without a leading zero, and at will a fraction and an exponent. */
  predicate NumeralParts(t: Text, sign: Text, whole: Text, fraction: Text, exponent: Text) {
    && t == sign + whole + fraction + exponent
    && (sign == [] || sign == [0x2D])
    && Decimals(whole) && (|whole| == 1 || whole[0] != 0x30)
    && (fraction == [] || (fraction[0] == 0x2E && Decimals(fraction[1..])))
    && (exponent == [] || (exponent[0] in {0x45, 0x65}
          && (Decimals(exponent[1..]) || (|exponent| > 1 && exponent[1] in {0x2B, 0x2D} && Decimals(exponent[2..])))))
  }

  ghost predicate IsNumeral(t: Text) {
    exists sign, whole, fraction, exponent :: NumeralParts(t, sign, whole, fraction, exponent)
  }

  predicate NumeralUnits(t: Text) {
    forall i :: 0 <= i < |t| ==> 0x30 <= t[i] <= 0x39 || t[i] in {0x2B, 0x2D, 0x2E, 0x45, 0x65}
  }

  /** A text of digits, signs, points and exponent marks denotes a value exactly when it is a numeral. */
  lemma NumeralsAreExact(t: Text)
    requires NumeralUnits(t)
    ensures (exists v :: Denotes(t, v)) <==> IsNumeral(t)
  {
    if v :| Denotes(t, v) {
      NumeralHasParts(t, v);
    }
    if sign, whole, fraction, exponent :| NumeralParts(t, sign, whole, fraction, exponent) {
      PartsAreNumeral(t, sign, whole, fraction, exponent);
    }
  }

  lemma DigitsAreDecimals(t: Text)
    ensures t != [] && AllDigits(t) <==> Decimals(t)
  {
    if t != [] && AllDigits(t) {
      forall i | 0 <= i < |t| ensures 0x30 <= t[i] <= 0x39 {
        assert t[i] in t;
      }
    }
  }

  /** A text that neither begins nor ends with white space is the text of a tree alone. */
  lemma BareTree(t: Text, v: Json) returns (tree: Tree)
    requires Denotes(t, v) && t != []
    requires t[0] !in {0x20, 0x09, 0x0A, 0x0D} && t[|t| - 1] !in {0x20, 0x09, 0x0A, 0x0D}
    ensures t == TreeText(tree) && TreeOk(tree, true)
  {
    hide TreeText, TreeOk, KeysDistinct, ValueOf;
    var p := TreeOf(t, v);
    EndsOf(p);
    tree := p.tree;
  }

  lemma NumeralHasParts(t: Text, v: Json)
    requires NumeralUnits(t) && Denotes(t, v)
    ensures IsNumeral(t)
  {
    FirstUnit(t, v);
    hide Denotes, TreeText, TreeOk, IsNumeral;
    var tree := BareTree(t, v);
    TreeBegins(tree);
    NumeralTreeParts(t, tree);
  }

  lemma NumeralTreeParts(t: Text, tree: Tree)
    requires t == TreeText(tree) && TreeOk(tree, true) && tree.Num?
    ensures IsNumeral(t)
  {
    var n := tree.numeral;
    var sign: Text := if n.minus then [0x2D] else [];
    var fraction, exponent := FractionText(n.fraction), ExponentText(n.exponent);
    DigitsAreDecimals(n.whole);
    if n.fraction.Some? {
      DigitsAreDecimals(n.fraction.value);
      assert fraction[1..] == n.fraction.value;
    }
    if n.exponent.Some? {
      var e := n.exponent.value;
      DigitsAreDecimals(e.digits);
      assert e.sign == [] ==> exponent[1..] == e.digits;
      assert e.sign != [] ==> exponent[2..] == e.digits;
    }
    assert NumeralParts(t, sign, n.whole, fraction, exponent);
  }

  function ExponentOf(exponent: Text): Exponent
    requires |exponent| > 1
  {
    if exponent[1] in {0x2B, 0x2D} then Exponent(exponent[0], [exponent[1]], exponent[2..])
    else Exponent(exponent[0], [], exponent[1..])
  }

  lemma PartsAreNumeral(t: Text, sign: Text, whole: Text, fraction: Text, exponent: Text)
    requires NumeralParts(t, sign, whole, fraction, exponent)
    ensures exists v :: Denotes(t, v)
  {
    var n := Numeral(sign != [], whole, if fraction == [] then None else Some(fraction[1..]),
      if exponent == [] then None else Some(ExponentOf(exponent)));
    DigitsAreDecimals(whole);
    if fraction != [] {
      DigitsAreDecimals(fraction[1..]);
    }
    if exponent != [] {
      var e := n.exponent.value;
      DigitsAreDecimals(e.digits);
      assert exponent == [e.mark] + e.sign + e.digits;
    }
    assert FractionText(n.fraction) == fraction && ExponentText(n.exponent) == exponent;
    assert NumeralOk(n);
    hide NumeralOk, ValueOf;
    OneTree(t, Num(n), ValueOf(Num(n)), ValueOf(Num(n)));
  }

  // Arrays.

  /** Texts with commas between them. */
  function Separated(texts: seq<Text>): Text {
    if texts == [] then []
    else if |texts| == 1 then texts[0]
    else texts[0] + [0x2C] + Separated(texts[1..])
  }

  /** Each text denotes its value. */
  ghost predicate AllDenote(texts: seq<Text>, values: seq<Json>) {
    |texts| == |values| && forall i :: 0 <= i < |texts| ==> Denotes(texts[i], values[i])
  }

  ghost predicate AllTrees(texts: seq<Text>, values: seq<Json>, ps: seq<Padded>) {
    |texts| == |values| == |ps| && forall i :: 0 <= i < |ps| ==> HasTree(texts[i], ps[i], values[i])
  }

  lemma {:induction false} TreesOf(texts: seq<Text>, values: seq<Json>) returns (ps: seq<Padded>)
    requires AllDenote(texts, values)
    ensures AllTrees(texts, values, ps)
  {
    hide Denotes, HasTree;
    if texts == [] {
      ps := [];
    } else {
      var first := TreeOf(texts[0], values[0]);
      var rest := TreesOf(texts[1..], values[1..]);
      ps := [first] + rest;
      forall i | 0 <= i < |ps| ensures HasTree(texts[i], ps[i], values[i]) {
        if i > 0 {
          assert HasTree(texts[1..][i - 1], rest[i - 1], values[1..][i - 1]);
        }
      }
    }
  }

  lemma TreeTextOf(t: Text, p: Padded, v: Json)
    requires HasTree(t, p, v)
    ensures t == PaddedText(p) && PaddedOk(p, true) && KeysDistinct(p.tree) && v == ValueOf(p.tree)
  {
    hide PaddedText, PaddedOk, KeysDistinct, ValueOf;
  }

  lemma {:induction false} ItemsSeparated(texts: seq<Text>, values: seq<Json>, ps: seq<Padded>)
    requires AllTrees(texts, values, ps)
    ensures ItemsText(ps) == Separated(texts)
  {
    hide HasTree, PaddedText;
    if ps == [] {
    } else {
      TreeTextOf(texts[0], ps[0], values[0]);
      ItemsSeparated(texts[1..], values[1..], ps[1..]);
    }
  }

  /** Texts of values, in brackets and with commas between them, are the text of the array of those values. */
  lemma ArraysAreExact(texts: seq<Text>, values: seq<Json>, v: Json)
    requires texts != [] && AllDenote(texts, values)
    ensures Denotes([0x5B] + Separated(texts) + [0x5D], v) <==> v == Array(values)
  {
    var ps := TreesOf(texts, values);
    ItemsSeparated(texts, values, ps);
    hide Denotes, HasTree, ItemsText, Separated;
    forall i | 0 <= i < |ps|
      ensures PaddedOk(ps[i], true) && KeysDistinct(ps[i].tree) && ValueOf(ps[i].tree) == values[i]
    {
      TreeTextOf(texts[i], ps[i], values[i]);
    }
    ArrayTree(ps, values);
    OneTree([0x5B] + Separated(texts) + [0x5D], Arr(ps), Array(values), v);
  }

  lemma ArrayTree(ps: seq<Padded>, values: seq<Json>)
    requires ps != [] && |ps| == |values|
    requires forall i :: 0 <= i < |ps| ==>
      PaddedOk(ps[i], true) && KeysDistinct(ps[i].tree) && ValueOf(ps[i].tree) == values[i]
    ensures TreeOk(Arr(ps), true) && KeysDistinct(Arr(ps)) && ValueOf(Arr(ps)) == Array(values)
  {
    hide PaddedOk;
    assert ValueOf(Arr(ps)).items == values;
  }

  /** An array may be empty but for white space, and so may an object. */
  lemma EmptyOnes(inside: Text, v: Json)
    requires forall i :: 0 <= i < |inside| ==> inside[i] in {0x20, 0x09, 0x0A, 0x0D}
    ensures Denotes([0x5B] + inside + [0x5D], v) <==> v == Array([])
    ensures Denotes([0x7B] + inside + [0x7D], v) <==> v == Object(map[])
  {
    hide Denotes;
    OneTree([0x5B] + inside + [0x5D], EmptyArr(inside), Array([]), v);
    OneTree([0x7B] + inside + [0x7D], EmptyObj(inside), Object(map[]), v);
  }

  // Objects.

  /** `name : value` with commas between. */
  function Members(names: seq<Text>, texts: seq<Text>): seq<Text>
    requires |names| == |texts|
  {
    seq(|names|, i requires 0 <= i < |names| => names[i] + [0x3A] + texts[i])
  }

  /** Each text of a name denotes that string. */
  ghost predicate AllName(names: seq<Text>, keys: seq<Text>) {
    |names| == |keys| && forall i :: 0 <= i < |names| ==> Denotes(names[i], String(keys[i]))
  }

  lemma NameTree(name: Text, n: Padded, key: Text)
    requires HasTree(name, n, String(key))
    ensures n.tree.Str? && name == n.before + StringText(n.tree.pieces) + n.after
    ensures PiecesOk(n.tree.pieces) && DecodeAll(n.tree.pieces) == key
    ensures AllWhite(n.before, true) && AllWhite(n.after, true)
  {
    hide PiecesText, PiecesOk, DecodeAll, AllWhite, StringText;
    assert ValueOf(n.tree) == String(key);
    var tree := n.tree;
    assert tree.Str?;
    assert TreeText(tree) == StringText(tree.pieces) && TreeOk(tree, true);
  }

  /** The entry of a member's text. */
  lemma EntryOf(name: Text, key: Text, text: Text, value: Json) returns (e: Entry)
    requires Denotes(name, String(key)) && Denotes(text, value)
    ensures EntryText(e) == name + [0x3A] + text && EntryOk(e, true) && KeyOf(e) == key
    ensures KeysDistinct(e.value.tree) && ValueOf(e.value.tree) == value
  {
    hide Denotes, PiecesOk, DecodeAll, AllWhite, HasTree, StringText, PaddedText, PaddedOk, KeysDistinct, ValueOf;
    var n := TreeOf(name, String(key));
    var p := TreeOf(text, value);
    NameTree(name, n, key);
    TreeTextOf(text, p, value);
    e := Entry(n.before, n.tree.pieces, n.after, p);
    assert EntryText(e) == n.before + StringText(n.tree.pieces) + n.after + [0x3A] + text;
  }

  /** These are entries of those members. */
  ghost predicate AllEntries(names: seq<Text>, keys: seq<Text>, texts: seq<Text>, values: seq<Json>, es: seq<Entry>) {
    && |names| == |keys| == |texts| == |values| == |es|
    && forall i :: 0 <= i < |es| ==>
      && EntryText(es[i]) == names[i] + [0x3A] + texts[i] && EntryOk(es[i], true) && KeyOf(es[i]) == keys[i]
      && KeysDistinct(es[i].value.tree) && ValueOf(es[i].value.tree) == values[i]
  }

  lemma {:induction false} EntriesOf(names: seq<Text>, keys: seq<Text>, texts: seq<Text>, values: seq<Json>)
      returns (es: seq<Entry>)
    requires AllName(names, keys) && AllDenote(texts, values) && |names| == |texts|
    ensures AllEntries(names, keys, texts, values, es)
  {
    hide Denotes, EntryText, EntryOk, KeyOf, KeysDistinct, ValueOf;
    if names == [] {
      es := [];
    } else {
      var first := EntryOf(names[0], keys[0], texts[0], values[0]);
      var rest := EntriesOf(names[1..], keys[1..], texts[1..], values[1..]);
      es := [first] + rest;
      forall i | 0 < i < |es|
        ensures es[i] == rest[i - 1] && names[i] == names[1..][i - 1] && keys[i] == keys[1..][i - 1]
        ensures texts[i] == texts[1..][i - 1] && values[i] == values[1..][i - 1]
      {
      }
    }
  }

  lemma {:induction false} EntriesSeparated(names: seq<Text>, texts: seq<Text>, es: seq<Entry>)
    requires |names| == |texts| == |es|
    requires forall i :: 0 <= i < |es| ==> EntryText(es[i]) == names[i] + [0x3A] + texts[i]
    ensures EntriesText(es) == Separated(Members(names, texts))
  {
    hide EntryText;
    if es == [] {
    } else {
      assert Members(names, texts)[1..] == Members(names[1..], texts[1..]);
      EntriesSeparated(names[1..], texts[1..], es[1..]);
    }
  }

  /** Of the members with one name the last one gives the value. */
  lemma {:induction false} LastWins(es: seq<Entry>)
    ensures forall k :: k in MembersOf(es) <==> exists i :: 0 <= i < |es| && KeyOf(es[i]) == k
    ensures forall i :: 0 <= i < |es| && (forall j :: i < j < |es| ==> KeyOf(es[j]) != KeyOf(es[i])) ==>
      MembersOf(es)[KeyOf(es[i])] == ValueOf(es[i].value.tree)
  {
    hide KeyOf, ValueOf;
    if es == [] {
    } else {
      var rest := es[1..];
      LastWins(rest);
      assert forall i :: 0 < i < |es| ==> es[i] == rest[i - 1];
      forall i | 0 <= i < |es| && (forall j :: i < j < |es| ==> KeyOf(es[j]) != KeyOf(es[i]))
        ensures KeyOf(es[i]) in MembersOf(es) && MembersOf(es)[KeyOf(es[i])] == ValueOf(es[i].value.tree)
      {
        if i > 0 {
          assert forall j :: i - 1 < j < |rest| ==> rest[j] == es[j + 1];
        } else {
          assert forall j :: 0 <= j < |rest| ==> rest[j] == es[j + 1];
        }
      }
    }
  }

  ghost predicate Distinct(keys: seq<Text>) {
    forall i, j :: 0 <= i < j < |keys| ==> keys[i] != keys[j]
  }

  /** The last value under each of the names, and nothing else. */
  ghost predicate LastOfEach(keys: seq<Text>, values: seq<Json>, m: map<Text, Json>)
    requires |keys| == |values|
  {
    && (forall k :: k in m <==> k in keys)
    && (forall i :: 0 <= i < |keys| && (forall j :: i < j < |keys| ==> keys[j] != keys[i]) ==>
          keys[i] in m && m[keys[i]] == values[i])
  }

  /**
   * Members in braces with commas between them. JSON.parse gives the last value under
   * each name; strict parsing gives the same, and only if no two names are equal.
   */
  lemma ObjectsAreExact(names: seq<Text>, keys: seq<Text>, texts: seq<Text>, values: seq<Json>)
      returns (m: map<Text, Json>)
    requires names != [] && AllName(names, keys) && AllDenote(texts, values) && |names| == |texts|
    ensures |keys| == |values| && LastOfEach(keys, values, m)
    ensures
      var t := [0x7B] + Separated(Members(names, texts)) + [0x7D];
      JsonParse(t) == Ok(Object(m)) && forall v :: Denotes(t, v) <==> Distinct(keys) && v == Object(m)
  {
    var es := EntriesOf(names, keys, texts, values);
    m := MembersOf(es);
    EntriesAreExact(names, keys, texts, values, es, m);
    LastOfEntries(names, keys, texts, values, es);
  }

  lemma LastOfEntries(names: seq<Text>, keys: seq<Text>, texts: seq<Text>, values: seq<Json>, es: seq<Entry>)
    requires AllEntries(names, keys, texts, values, es)
    ensures LastOfEach(keys, values, MembersOf(es))
  {
    hide EntryText, EntryOk, KeyOf, KeysDistinct, ValueOf;
    LastWins(es);
    hide MembersOf;
    forall i | 0 <= i < |keys| && (forall j :: i < j < |keys| ==> keys[j] != keys[i])
      ensures keys[i] in MembersOf(es) && MembersOf(es)[keys[i]] == values[i]
    {
      assert KeyOf(es[i]) == keys[i];
      assert forall j :: i < j < |es| ==> KeyOf(es[j]) == keys[j];
    }
    forall k ensures k in MembersOf(es) <==> k in keys {
      if k in keys {
        var i :| 0 <= i < |keys| && keys[i] == k;
        assert KeyOf(es[i]) == k;
      }
    }
  }

  lemma EntriesAreExact(names: seq<Text>, keys: seq<Text>, texts: seq<Text>, values: seq<Json>, es: seq<Entry>,
      m: map<Text, Json>)
    requires names != [] && AllEntries(names, keys, texts, values, es) && m == MembersOf(es)
    ensures
      var t := [0x7B] + Separated(Members(names, texts)) + [0x7D];
      JsonParse(t) == Ok(Object(m)) && forall v :: Denotes(t, v) <==> Distinct(keys) && v == Object(m)
  {
    hide Denotes, EntryText, EntryOk, KeyOf, KeysDistinct, ValueOf, JsonParse, Separated, EntriesText, MembersOf,
      Members,
      TreeText, TreeOk;
    EntriesSeparated(names, texts, es);
    ObjectTree(es, m);
    DistinctNames(es);
    assert Distinct(keys) <==> KeysDistinct(Obj(es)) by {
      assert forall i :: 0 <= i < |es| ==> KeyOf(es[i]) == keys[i];
    }
    ObjectDenotes([0x7B] + Separated(Members(names, texts)) + [0x7D], Obj(es), Object(m));
  }

  lemma DistinctNames(es: seq<Entry>)
    requires forall i :: 0 <= i < |es| ==> KeysDistinct(es[i].value.tree)
    ensures KeysDistinct(Obj(es)) <==> forall i, j :: 0 <= i < j < |es| ==> KeyOf(es[i]) != KeyOf(es[j])
  {
    hide KeyOf;
  }

  lemma ObjectTree(es: seq<Entry>, m: map<Text, Json>)
    requires es != [] && m == MembersOf(es) && forall i :: 0 <= i < |es| ==> EntryOk(es[i], true)
    ensures TreeOk(Obj(es), true) && ValueOf(Obj(es)) == Object(m)
    ensures TreeText(Obj(es)) == [0x7B] + EntriesText(es) + [0x7D]
  {
    hide EntryOk, MembersOf, EntriesText;
  }

  lemma ObjectDenotes(t: Text, tree: Tree, w: Json)
    requires t == TreeText(tree) && TreeOk(tree, true) && w == ValueOf(tree)
    ensures JsonParse(t) == Ok(w)
    ensures forall v :: Denotes(t, v) <==> KeysDistinct(tree) && v == w
  {
    hide TreeText, TreeOk, KeysDistinct, ValueOf, JsonParse;
    var p := Padded([], tree, []);
    assert t == PaddedText(p) && PaddedOk(p, true);
    JsonParseIsTheGrammar(t, w);
    forall v ensures Denotes(t, v) <==> KeysDistinct(tree) && v == w {
      if KeysDistinct(tree) && v == w {
        assert Denotes(t, v);
      }
      if Denotes(t, v) {
        var q := TreeOf(t, v);
        StrictIsLenientPadded(p);
        StrictIsLenientPadded(q);
        JsonAccepting.ReadingIsUnique(p, q);
      }
    }
  }
}
