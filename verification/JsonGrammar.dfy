/**
 * JSON texts as sequences of UTF-16 code units, declaratively: a syntax tree
 * keeps every unit of its text (white space, escapes, numerals), so that a text
 * is JSON exactly when it is the text of some well-formed tree.
 */
module JsonGrammar {
  import opened Prelude

  type Unit = u: int | 0 <= u < 0x1_0000

  type Text = seq<Unit>

  const QUOTE: Unit := 0x22
  const BACKSLASH: Unit := 0x5C
  const COMMA: Unit := 0x2C
  const COLON: Unit := 0x3A
  const OPEN_BRACE: Unit := 0x7B
  const CLOSE_BRACE: Unit := 0x7D
  const OPEN_BRACKET: Unit := 0x5B
  const CLOSE_BRACKET: Unit := 0x5D
  const MINUS: Unit := 0x2D
  const PLUS: Unit := 0x2B
  const POINT: Unit := 0x2E

  predicate Digit(u: Unit) { 0x30 <= u <= 0x39 }

  predicate HexDigit(u: Unit) { Digit(u) || 0x41 <= u <= 0x46 || 0x61 <= u <= 0x66 }

  /** White space of RFC 8259, section 2. */
  predicate StrictWhite(u: Unit) { u in {0x20, 0x09, 0x0A, 0x0D} }

  /** White space of the scanner's `\s`, which is wider. */
  predicate White(u: Unit) {
    || 0x09 <= u <= 0x0D || u in {0x20, 0xA0, 0x1680, 0x2028, 0x2029, 0x202F, 0x205F, 0x3000, 0xFEFF}
    || 0x2000 <= u <= 0x200A
  }

  predicate AllWhite(t: Text, strict: bool) {
    forall u :: u in t ==> if strict then StrictWhite(u) else White(u)
  }

  predicate AllDigits(t: Text) {
    forall u :: u in t ==> Digit(u)
  }

  // Strings.

  /** One character of a string as it is written. */
  datatype Piece = Raw(u: Unit) | Short(letter: Unit) | Hex(digits: Text)

  /** The letters after a backslash that stand for one character, with what they stand for. */
  const SHORT_ESCAPES: map<Unit, Unit> :=
    map[QUOTE := QUOTE, BACKSLASH := BACKSLASH, 0x2F := 0x2F, 0x62 := 0x08,
        0x66 := 0x0C, 0x6E := 0x0A, 0x72 := 0x0D, 0x74 := 0x09]

  predicate ShortEscape(letter: Unit) { letter in SHORT_ESCAPES }

  const LETTER_U: Unit := 0x75

  predicate PieceOk(p: Piece) {
    match p
    case Raw(u) => u >= 0x20 && u != QUOTE && u != BACKSLASH
    case Short(letter) => ShortEscape(letter)
    case Hex(digits) => |digits| == 4 && forall u :: u in digits ==> HexDigit(u)
  }

  function HexValue(u: Unit): (v: nat)
    ensures v < 16
  {
    if Digit(u) then u - 0x30
    else if 0x41 <= u <= 0x46 then u - 0x41 + 10
    else if 0x61 <= u <= 0x66 then u - 0x61 + 10
    else 0
  }

  function Decode(p: Piece): Unit {
    match p
    case Raw(u) => u
    case Short(letter) => if ShortEscape(letter) then SHORT_ESCAPES[letter] else letter
    case Hex(d) =>
      if |d| == 4 then HexValue(d[0]) * 4096 + HexValue(d[1]) * 256 + HexValue(d[2]) * 16 + HexValue(d[3]) else 0
  }

  predicate PiecesOk(ps: seq<Piece>) {
    forall p :: p in ps ==> PieceOk(p)
  }

  function DecodeAll(ps: seq<Piece>): Text {
    if ps == [] then [] else [Decode(ps[0])] + DecodeAll(ps[1..])
  }

  function PieceText(p: Piece): Text {
    match p
    case Raw(u) => [u]
    case Short(letter) => [BACKSLASH, letter]
    case Hex(digits) => [BACKSLASH, LETTER_U] + digits
  }

  function PiecesText(ps: seq<Piece>): Text {
    if ps == [] then [] else PieceText(ps[0]) + PiecesText(ps[1..])
  }

  function StringText(ps: seq<Piece>): Text {
    [QUOTE] + PiecesText(ps) + [QUOTE]
  }

  // Numerals, section 6 of RFC 8259.

  datatype Exponent = Exponent(mark: Unit, sign: Text, digits: Text)

  datatype Numeral = Numeral(minus: bool, whole: Text, fraction: Option<Text>, exponent: Option<Exponent>)

  predicate WholeOk(t: Text) {
    t != [] && AllDigits(t) && (|t| > 1 ==> t[0] != 0x30)
  }

  predicate NumeralOk(n: Numeral) {
    && WholeOk(n.whole)
    && (n.fraction.Some? ==> n.fraction.value != [] && AllDigits(n.fraction.value))
    && (n.exponent.Some? ==> ExponentOk(n.exponent.value))
  }

  predicate ExponentOk(e: Exponent) {
    e.mark in {0x45, 0x65} && e.sign in {[], [PLUS], [MINUS]} && e.digits != [] && AllDigits(e.digits)
  }

  function FractionText(f: Option<Text>): Text {
    if f.Some? then [POINT] + f.value else []
  }

  function ExponentText(e: Option<Exponent>): Text {
    if e.Some? then [e.value.mark] + e.value.sign + e.value.digits else []
  }

  function NumeralText(n: Numeral): Text {
    (if n.minus then [MINUS] else []) + n.whole + FractionText(n.fraction) + ExponentText(n.exponent)
  }

  // Trees.

  datatype Tree =
    | Word(word: Literal)
    | Num(numeral: Numeral)
    | Str(pieces: seq<Piece>)
    | EmptyArr(inside: Text)
    | Arr(items: seq<Padded>)
    | EmptyObj(inside: Text)
    | Obj(members: seq<Entry>)

  datatype Literal = True | False | Null

  /** A value with the white space around it. */
  datatype Padded = Padded(before: Text, tree: Tree, after: Text)

  /** One `"key" : value` of an object. */
  datatype Entry = Entry(before: Text, key: seq<Piece>, mid: Text, value: Padded)

  function WordText(w: Literal): Text {
    match w
    case True => [0x74, 0x72, 0x75, 0x65]
    case False => [0x66, 0x61, 0x6C, 0x73, 0x65]
    case Null => [0x6E, 0x75, 0x6C, 0x6C]
  }

  function TreeText(t: Tree): Text {
    match t
    case Word(w) => WordText(w)
    case Num(n) => NumeralText(n)
    case Str(ps) => StringText(ps)
    case EmptyArr(inside) => [OPEN_BRACKET] + inside + [CLOSE_BRACKET]
    case Arr(items) => [OPEN_BRACKET] + ItemsText(items) + [CLOSE_BRACKET]
    case EmptyObj(inside) => [OPEN_BRACE] + inside + [CLOSE_BRACE]
    case Obj(members) => [OPEN_BRACE] + EntriesText(members) + [CLOSE_BRACE]
  }

  function PaddedText(p: Padded): Text {
    p.before + TreeText(p.tree) + p.after
  }

  function ItemsText(items: seq<Padded>): Text {
    if items == [] then []
    else if |items| == 1 then PaddedText(items[0])
    else PaddedText(items[0]) + [COMMA] + ItemsText(items[1..])
  }

  function EntryText(e: Entry): Text {
    e.before + StringText(e.key) + e.mid + [COLON] + PaddedText(e.value)
  }

  function EntriesText(entries: seq<Entry>): Text {
    if entries == [] then []
    else if |entries| == 1 then EntryText(entries[0])
    else EntryText(entries[0]) + [COMMA] + EntriesText(entries[1..])
  }

  /** Well-formed with the white space of RFC 8259 (strict) or of the scanner. */
  predicate TreeOk(t: Tree, strict: bool) {
    match t
    case Word(_) => true
    case Num(n) => NumeralOk(n)
    case Str(ps) => PiecesOk(ps)
    case EmptyArr(inside) => AllWhite(inside, strict)
    case Arr(items) => items != [] && forall p :: p in items ==> PaddedOk(p, strict)
    case EmptyObj(inside) => AllWhite(inside, strict)
    case Obj(members) => members != [] && forall e :: e in members ==> EntryOk(e, strict)
  }

  predicate PaddedOk(p: Padded, strict: bool) {
    AllWhite(p.before, strict) && TreeOk(p.tree, strict) && AllWhite(p.after, strict)
  }

  predicate EntryOk(e: Entry, strict: bool) {
    AllWhite(e.before, strict) && PiecesOk(e.key) && AllWhite(e.mid, strict) && PaddedOk(e.value, strict)
  }

  function KeyOf(e: Entry): Text {
    DecodeAll(e.key)
  }

  /** In every object of the tree no two members have the same decoded key. */
  predicate KeysDistinct(t: Tree) {
    match t
    case Arr(items) => forall p :: p in items ==> KeysDistinct(p.tree)
    case Obj(members) =>
      && (forall i, j :: 0 <= i < j < |members| ==> KeyOf(members[i]) != KeyOf(members[j]))
      && (forall e :: e in members ==> KeysDistinct(e.value.tree))
    case _ => true
  }
}
