/** Completeness of the reading: the text of every well-formed tree is accepted, and read as that tree. */
module JsonAccepting {
  import opened Prelude
  import opened JsonGrammar
  import opened JsonScan
  import opened JsonShape
  import opened JsonReading

  lemma {:induction false} WhiteSplits(w: Text, rest: Text)
    requires AllWhite(w, false) && (rest == [] || !White(rest[0]))
    ensures SplitWhite(w + rest) == (w, rest)
  {
    if w == [] {
      assert w + rest == rest;
    } else {
      WhiteSplits(w[1..], rest);
      Uncons(w);
      Flat3([w[0]], w[1..], rest);
      Cons(w[0], w[1..] + rest);
    }
  }

  lemma {:induction false} DigitsSplit(d: Text, rest: Text)
    requires AllDigits(d) && (rest == [] || !Digit(rest[0]))
    ensures SplitDigits(d + rest) == (d, rest)
  {
    if d == [] {
      assert d + rest == rest;
    } else {
      DigitsSplit(d[1..], rest);
      Uncons(d);
      Flat3([d[0]], d[1..], rest);
      Cons(d[0], d[1..] + rest);
    }
  }

  lemma FirstPieceScans(p: Piece, tail: Text)
    requires PieceOk(p)
    ensures ScanPieces(PieceText(p) + tail) == Prepend(p, ScanPieces(tail))
  {
    var t := PieceText(p) + tail;
    match p
    case Raw(u) => assert t[1..] == tail;
    case Short(letter) => assert t[2..] == tail && t[0] == BACKSLASH && t[1] == letter;
    case Hex(digits) => assert t[2..6] == digits && t[6..] == tail && t[0] == BACKSLASH && t[1] == LETTER_U;
  }

  lemma {:induction false} PiecesScan(ps: seq<Piece>, rest: Text)
    requires PiecesOk(ps)
    ensures ScanPieces(PiecesText(ps) + ([QUOTE] + rest)) == Some((ps, rest))
  {
    if ps == [] {
      assert PiecesText(ps) + ([QUOTE] + rest) == [QUOTE] + rest;
      Cons(QUOTE, rest);
    } else {
      PiecesScan(ps[1..], rest);
      assert ps == [ps[0]] + ps[1..];
      PiecesShape(ps[0], ps[1..], [QUOTE] + rest);
      FirstPieceScans(ps[0], PiecesText(ps[1..]) + ([QUOTE] + rest));
      hide ScanPieces, PiecesText, PieceText;
    }
  }

  /** What may follow a value: the end, white space, or the punctuation after a value. */
  predicate Boundary(rest: Text) {
    rest == [] || White(rest[0]) || rest[0] in {COMMA, CLOSE_BRACKET, CLOSE_BRACE}
  }

  lemma ExponentScans(e: Option<Exponent>, rest: Text)
    requires (e.Some? ==> ExponentOk(e.value)) && Boundary(rest)
    ensures ScanExponent(ExponentText(e) + rest) == (e, rest)
  {
    if e.Some? {
      var x := e.value;
      ExponentShape(x, rest);
      Cons(x.mark, x.sign + (x.digits + rest));
      SignScans(x.sign, x.digits + rest);
      DigitsSplit(x.digits, rest);
      hide SplitDigits, ScanSign, ExponentText;
    } else {
      assert ExponentText(e) + rest == rest;
    }
  }

  lemma SignScans(sign: Text, rest: Text)
    requires sign in {[], [PLUS], [MINUS]} && rest != [] && Digit(rest[0])
    ensures ScanSign(sign + rest) == (sign, rest)
  {
    if sign == [] {
      assert sign + rest == rest;
    } else {
      Cons(sign[0], rest);
    }
  }

  /** What may follow the whole part or the fraction of a numeral. */
  lemma ExponentStart(e: Option<Exponent>, rest: Text)
    requires (e.Some? ==> ExponentOk(e.value)) && Boundary(rest)
    ensures var t := ExponentText(e) + rest; t == [] || (!Digit(t[0]) && t[0] != POINT)
  {
    if e.None? {
      assert ExponentText(e) + rest == rest;
    }
  }

  lemma FractionScans(f: Option<Text>, rest: Text)
    requires f.Some? ==> f.value != [] && AllDigits(f.value)
    requires rest == [] || (!Digit(rest[0]) && rest[0] != POINT)
    ensures ScanFraction(FractionText(f) + rest) == (f, rest)
    ensures var t := FractionText(f) + rest; t == [] || !Digit(t[0])
  {
    if f.Some? {
      Flat3([POINT], f.value, rest);
      Cons(POINT, f.value + rest);
      DigitsSplit(f.value, rest);
      hide SplitDigits;
    } else {
      assert FractionText(f) + rest == rest;
    }
  }

  lemma WholeScans(whole: Text, rest: Text)
    requires WholeOk(whole) && (rest == [] || !Digit(rest[0]))
    ensures ScanWhole(whole + rest) == (whole, rest) && !StartsWith(whole + rest, MINUS)
  {
    DigitsSplit(whole, rest);
    assert (whole + rest)[0] == whole[0] && Digit(whole[0]);
    if whole[0] == 0x30 {
      assert whole == [0x30];
      Cons(0x30, rest);
    }
    hide SplitDigits;
  }

  lemma NumeralScans(n: Numeral, rest: Text)
    requires NumeralOk(n) && Boundary(rest)
    ensures ScanNumeral(NumeralText(n) + rest) == Some((n, rest))
  {
    hide NumeralText, FractionText, ExponentText, ScanWhole, ScanFraction, ScanExponent, WholeOk, ExponentOk;
    NumeralShape(n, rest);
    var v := ExponentText(n.exponent) + rest;
    var u := FractionText(n.fraction) + v;
    ExponentStart(n.exponent, rest);
    ExponentScans(n.exponent, rest);
    FractionScans(n.fraction, v);
    WholeScans(n.whole, u);
    if n.minus {
      Cons(MINUS, n.whole + u);
    } else {
      assert [] + (n.whole + u) == n.whole + u;
    }
    NotEmpty(n.whole);
  }

  lemma NotEmpty(whole: Text)
    requires WholeOk(whole)
    ensures whole != []
  {
  }

  /** The first unit of a value is no white space and closes nothing. */
  lemma TreeStart(t: Tree, rest: Text)
    requires TreeOk(t, false)
    ensures var u := TreeText(t) + rest; u != [] && !White(u[0]) && u[0] != CLOSE_BRACKET
  {
    hide ItemsText, EntriesText, PiecesText, FractionText, ExponentText, ExponentOk;
    match t
    case Num(n) => assert WholeOk(n.whole) && Digit(n.whole[0]);
    case _ =>
  }

  lemma NumeralStart(n: Numeral, rest: Text)
    requires NumeralOk(n)
    ensures var u := NumeralText(n) + rest; u != [] && (u[0] == MINUS || Digit(u[0]))
  {
    hide FractionText, ExponentText, ExponentOk;
    assert WholeOk(n.whole) && Digit(n.whole[0]);
  }

  lemma AtomScans(t: Tree, rest: Text)
    requires (t.Word? || t.Num?) && TreeOk(t, false) && Boundary(rest)
    ensures ScanAtom(TreeText(t) + rest) == Some((t, rest))
    ensures var u := TreeText(t) + rest; u != [] && u[0] !in {OPEN_BRACE, OPEN_BRACKET, QUOTE}
  {
    hide ScanNumeral, NumeralText, NumeralOk;
    if t.Num? {
      NumeralScans(t.numeral, rest);
      NumeralStart(t.numeral, rest);
      NoWord(NumeralText(t.numeral) + rest);
    } else {
      assert (WordText(t.word) + rest)[|WordText(t.word)|..] == rest;
      assert WordText(t.word) <= TreeText(t) + rest;
      OneWord(TreeText(t) + rest);
    }
  }

  lemma NoWord(u: Text)
    requires u != [] && (u[0] == MINUS || Digit(u[0]))
    ensures !(WordText(True) <= u) && !(WordText(False) <= u) && !(WordText(Null) <= u)
  {
  }

  lemma OneWord(u: Text)
    ensures forall v, w :: WordText(v) <= u && WordText(w) <= u ==> v == w
  {
    forall v, w | WordText(v) <= u && WordText(w) <= u ensures v == w {
      assert WordText(v)[0] == u[0] == WordText(w)[0];
    }
  }

  lemma {:induction false} TreeScans(t: Tree, rest: Text, unique: bool)
    requires TreeOk(t, false) && (unique ==> KeysDistinct(t)) && Boundary(rest)
    ensures ScanTree(TreeText(t) + rest, unique) == Some((t, rest))
    decreases t
  {
    hide ScanObject, ScanArray, ScanPieces, ScanAtom, StringText, PiecesText, PiecesOk, ItemsText, EntriesText;
    match t {
      case Str(ps) =>
        StringShape(ps, rest);
        PiecesScan(ps, rest);
        Cons(QUOTE, PiecesText(ps) + ([QUOTE] + rest));
      case EmptyArr(inside) =>
        Bracketed([OPEN_BRACKET], inside, [CLOSE_BRACKET], rest);
        Cons(OPEN_BRACKET, inside + ([CLOSE_BRACKET] + rest));
        EmptyArrayScans(inside, rest, unique);
      case EmptyObj(inside) =>
        Bracketed([OPEN_BRACE], inside, [CLOSE_BRACE], rest);
        Cons(OPEN_BRACE, inside + ([CLOSE_BRACE] + rest));
        EmptyObjectScans(inside, rest, unique);
      case Arr(items) =>
        Bracketed([OPEN_BRACKET], ItemsText(items), [CLOSE_BRACKET], rest);
        Cons(OPEN_BRACKET, ItemsText(items) + ([CLOSE_BRACKET] + rest));
        ItemsScan(items, rest, unique);
        ArrayScans(items, rest, unique);
      case Obj(members) =>
        Bracketed([OPEN_BRACE], EntriesText(members), [CLOSE_BRACE], rest);
        Cons(OPEN_BRACE, EntriesText(members) + ([CLOSE_BRACE] + rest));
        if unique {
          DistinctAreFresh(members);
        }
        EntriesScan(members, {}, rest, unique);
        ObjectScans(members, rest, unique);
      case _ =>
        AtomScans(t, rest);
    }
  }

  lemma DistinctAreFresh(members: seq<Entry>)
    requires forall i, j :: 0 <= i < j < |members| ==> KeyOf(members[i]) != KeyOf(members[j])
    ensures FreshKeys(members, {})
  {
  }

  lemma EmptyArrayScans(inside: Text, rest: Text, unique: bool)
    requires AllWhite(inside, false)
    ensures ScanArray(inside + ([CLOSE_BRACKET] + rest), unique) == Some((EmptyArr(inside), rest))
  {
    hide SplitWhite, ScanItems;
    Cons(CLOSE_BRACKET, rest);
    WhiteSplits(inside, [CLOSE_BRACKET] + rest);
  }

  lemma EmptyObjectScans(inside: Text, rest: Text, unique: bool)
    requires AllWhite(inside, false)
    ensures ScanObject(inside + ([CLOSE_BRACE] + rest), unique) == Some((EmptyObj(inside), rest))
  {
    hide SplitWhite, ScanEntries;
    Cons(CLOSE_BRACE, rest);
    WhiteSplits(inside, [CLOSE_BRACE] + rest);
  }

  lemma ArrayScans(items: seq<Padded>, rest: Text, unique: bool)
    requires items != [] && PaddedOk(items[0], false)
    requires ScanItems(ItemsText(items) + ([CLOSE_BRACKET] + rest), unique) == Some((items, rest))
    ensures ScanArray(ItemsText(items) + ([CLOSE_BRACKET] + rest), unique) == Some((Arr(items), rest))
  {
    hide SplitWhite, ScanItems, ItemsText, TreeText, TreeOk, AllWhite, PaddedText;
    var p := items[0];
    var after := p.after + AfterItem(items, rest);
    ItemsHead(items, rest);
    PaddedShape(p, AfterItem(items, rest));
    TreeStart(p.tree, after);
    WhiteSplits(p.before, TreeText(p.tree) + after);
  }

  /** What follows the first of some items. */
  ghost function AfterItem(items: seq<Padded>, rest: Text): Text
    requires items != []
  {
    if |items| == 1 then [CLOSE_BRACKET] + rest else [COMMA] + (ItemsText(items[1..]) + ([CLOSE_BRACKET] + rest))
  }

  lemma ItemsHead(items: seq<Padded>, rest: Text)
    requires items != []
    ensures ItemsText(items) + ([CLOSE_BRACKET] + rest) == PaddedText(items[0]) + AfterItem(items, rest)
  {
    hide ItemsText, PaddedText;
    assert items == [items[0]] + items[1..];
    assert |items| == 1 ==> items == [items[0]];
    ItemsShape(items[0], items[1..], [CLOSE_BRACKET] + rest);
  }

  lemma ObjectScans(members: seq<Entry>, rest: Text, unique: bool)
    requires members != [] && EntryOk(members[0], false)
    requires ScanEntries(EntriesText(members) + ([CLOSE_BRACE] + rest), {}, unique) == Some((members, rest))
    ensures ScanObject(EntriesText(members) + ([CLOSE_BRACE] + rest), unique) == Some((Obj(members), rest))
  {
    hide SplitWhite, ScanEntries, EntriesText, PiecesText, PaddedText, PaddedOk, PiecesOk, AllWhite, EntryText;
    var e := members[0];
    var after := AfterEntry(members, rest);
    EntriesHead(members, rest);
    EntryShape(e, after);
    Cons(QUOTE, PiecesText(e.key) + ([QUOTE] + (e.mid + ([COLON] + (PaddedText(e.value) + after)))));
    WhiteSplits(e.before,
      [QUOTE] + (PiecesText(e.key) + ([QUOTE] + (e.mid + ([COLON] + (PaddedText(e.value) + after))))));
  }

  /** What follows the first of some members. */
  ghost function AfterEntry(members: seq<Entry>, rest: Text): Text
    requires members != []
  {
    if |members| == 1 then [CLOSE_BRACE] + rest else [COMMA] + (EntriesText(members[1..]) + ([CLOSE_BRACE] + rest))
  }

  lemma EntriesHead(members: seq<Entry>, rest: Text)
    requires members != []
    ensures EntriesText(members) + ([CLOSE_BRACE] + rest) == EntryText(members[0]) + AfterEntry(members, rest)
  {
    hide EntriesText, EntryText;
    assert members == [members[0]] + members[1..];
    assert |members| == 1 ==> members == [members[0]];
    EntriesShape(members[0], members[1..], [CLOSE_BRACE] + rest);
  }

  /** The end, or punctuation that no white space can be confused with. */
  predicate Closed(rest: Text) {
    rest == [] || rest[0] in {COMMA, CLOSE_BRACKET, CLOSE_BRACE}
  }

  lemma AfterWhite(w: Text, rest: Text)
    requires AllWhite(w, false) && Closed(rest)
    ensures Boundary(w + rest) && (rest == [] || !White(rest[0]))
  {
    if w == [] {
      assert w + rest == rest;
    } else {
      assert (w + rest)[0] == w[0];
    }
  }

  lemma {:induction false} PaddedScans(p: Padded, rest: Text, unique: bool)
    requires PaddedOk(p, false) && (unique ==> KeysDistinct(p.tree)) && Closed(rest)
    ensures ScanPadded(PaddedText(p) + rest, unique) == Some((p, rest))
    decreases p
  {
    hide ScanTree, SplitWhite, TreeOk, TreeText, KeysDistinct, PaddedText, AllWhite, Boundary, Closed;
    PaddedShape(p, rest);
    AfterWhite(p.after, rest);
    TreeStart(p.tree, p.after + rest);
    WhiteSplits(p.before, TreeText(p.tree) + (p.after + rest));
    TreeScans(p.tree, p.after + rest, unique);
    WhiteSplits(p.after, rest);
  }

  lemma {:induction false} ItemsScan(items: seq<Padded>, rest: Text, unique: bool)
    requires items != [] && forall p :: p in items ==> PaddedOk(p, false) && (unique ==> KeysDistinct(p.tree))
    ensures ScanItems(ItemsText(items) + ([CLOSE_BRACKET] + rest), unique) == Some((items, rest))
    decreases items
  {
    hide PaddedText, PaddedOk, KeysDistinct, ScanPadded, ItemsText;
    ItemsHead(items, rest);
    assert items == [items[0]] + items[1..];
    PaddedScans(items[0], AfterItem(items, rest), unique);
    if |items| == 1 {
      Cons(CLOSE_BRACKET, rest);
      assert items == [items[0]];
    } else {
      Cons(COMMA, ItemsText(items[1..]) + ([CLOSE_BRACKET] + rest));
      ItemsScan(items[1..], rest, unique);
    }
  }

  lemma {:induction false} EntryScans(e: Entry, keys: set<Text>, rest: Text, unique: bool)
    requires EntryOk(e, false) && (unique ==> KeysDistinct(e.value.tree) && KeyOf(e) !in keys) && Closed(rest)
    ensures ScanEntry(EntryText(e) + rest, keys, unique) == Some((e, rest))
    decreases e
  {
    hide PaddedText, PaddedOk, KeysDistinct, ScanPadded, ScanPieces, PiecesText, PiecesOk, SplitWhite, EntryText,
      DecodeAll, AllWhite, Closed;
    EntryShape(e, rest);
    var c := PaddedText(e.value) + rest;
    var r := e.mid + ([COLON] + c);
    var q := PiecesText(e.key) + ([QUOTE] + r);
    Cons(QUOTE, q);
    Cons(COLON, c);
    WhiteSplits(e.before, [QUOTE] + q);
    PiecesScan(e.key, r);
    WhiteSplits(e.mid, [COLON] + c);
    PaddedScans(e.value, rest, unique);
  }

  lemma {:induction false} EntriesScan(entries: seq<Entry>, keys: set<Text>, rest: Text, unique: bool)
    requires entries != [] && forall e :: e in entries ==> EntryOk(e, false) && (unique ==> KeysDistinct(e.value.tree))
    requires unique ==> FreshKeys(entries, keys)
    ensures ScanEntries(EntriesText(entries) + ([CLOSE_BRACE] + rest), keys, unique) == Some((entries, rest))
    decreases entries
  {
    hide EntryText, EntryOk, KeysDistinct, ScanEntry, KeyOf, FreshKeys, EntriesText;
    EntriesHead(entries, rest);
    var e := entries[0];
    assert entries == [e] + entries[1..];
    FreshKeysCons(e, entries[1..], keys);
    EntryScans(e, keys, AfterEntry(entries, rest), unique);
    if |entries| == 1 {
      Cons(CLOSE_BRACE, rest);
      assert entries == [e];
    } else {
      Cons(COMMA, EntriesText(entries[1..]) + ([CLOSE_BRACE] + rest));
      EntriesScan(entries[1..], keys + {KeyOf(e)}, rest, unique);
    }
  }

  // The exact meaning of the reading.

  /**
   * A text is read as a tree exactly when it is the text of that well-formed tree (without repeated
   * keys, if `unique`).
   */
  lemma ScanIsExact(t: Text, p: Padded, unique: bool)
    ensures ScanText(t, unique) == Some(p) <==>
      t == PaddedText(p) && PaddedOk(p, false) && (unique ==> KeysDistinct(p.tree))
  {
    hide ScanPadded, PaddedText, PaddedOk, KeysDistinct;
    if ScanText(t, unique) == Some(p) {
      PaddedSound(t, unique);
      assert PaddedText(p) + [] == PaddedText(p);
    }
    if t == PaddedText(p) && PaddedOk(p, false) && (unique ==> KeysDistinct(p.tree)) {
      PaddedScans(p, [], unique);
      assert PaddedText(p) + [] == PaddedText(p);
    }
  }

  /** No text has two readings. */
  lemma ReadingIsUnique(p: Padded, q: Padded)
    requires PaddedOk(p, false) && PaddedOk(q, false) && PaddedText(p) == PaddedText(q)
    ensures p == q
  {
    ScanIsExact(PaddedText(p), p, false);
    ScanIsExact(PaddedText(q), q, false);
  }
}
