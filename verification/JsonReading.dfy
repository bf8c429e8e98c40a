/** How a text is put together, as right-nested concatenations, so that proofs need no further regrouping. */
module JsonShape {
  import opened Prelude
  import opened JsonGrammar

  lemma Cons(u: Unit, t: Text)
    ensures ([u] + t)[0] == u && ([u] + t)[1..] == t
  {
  }

  lemma Uncons(t: Text)
    requires t != []
    ensures t == [t[0]] + t[1..]
  {
  }

  lemma Flat3(a: Text, b: Text, c: Text)
    ensures a + b + c == a + (b + c)
  {
  }

  lemma PiecesShape(p: Piece, ps: seq<Piece>, rest: Text)
    ensures PiecesText([p] + ps) + rest == PieceText(p) + (PiecesText(ps) + rest)
  {
    assert ([p] + ps)[1..] == ps;
    Flat3(PieceText(p), PiecesText(ps), rest);
  }

  lemma StringShape(ps: seq<Piece>, rest: Text)
    ensures StringText(ps) + rest == [QUOTE] + (PiecesText(ps) + ([QUOTE] + rest))
  {
    hide PiecesText;
    Flat3([QUOTE], PiecesText(ps), [QUOTE]);
    Flat3([QUOTE], PiecesText(ps) + [QUOTE], rest);
    Flat3(PiecesText(ps), [QUOTE], rest);
  }

  lemma ExponentShape(e: Exponent, rest: Text)
    ensures ExponentText(Some(e)) + rest == [e.mark] + (e.sign + (e.digits + rest))
  {
    Flat3([e.mark] + e.sign, e.digits, rest);
    Flat3([e.mark], e.sign, e.digits + rest);
  }

  lemma NumeralShape(n: Numeral, rest: Text)
    ensures NumeralText(n) + rest ==
      (if n.minus then [MINUS] else []) + (n.whole + (FractionText(n.fraction) + (ExponentText(n.exponent) + rest)))
  {
    hide FractionText, ExponentText;
    var sign: Text := if n.minus then [MINUS] else [];
    var f, e := FractionText(n.fraction), ExponentText(n.exponent);
    Flat3(sign + n.whole + f, e, rest);
    Flat3(sign + n.whole, f, e + rest);
    Flat3(sign, n.whole, f + (e + rest));
  }

  lemma PaddedShape(p: Padded, rest: Text)
    ensures PaddedText(p) + rest == p.before + (TreeText(p.tree) + (p.after + rest))
  {
    hide TreeText;
    Flat3(p.before + TreeText(p.tree), p.after, rest);
    Flat3(p.before, TreeText(p.tree), p.after + rest);
  }

  lemma Bracketed(a: Text, b: Text, c: Text, rest: Text)
    ensures a + b + c + rest == a + (b + (c + rest))
  {
    Flat3(a + b, c, rest);
    Flat3(a, b, c + rest);
  }

  lemma ItemsShape(p: Padded, items: seq<Padded>, rest: Text)
    ensures ItemsText([p]) == PaddedText(p)
    ensures items != [] ==> ItemsText([p] + items) + rest == PaddedText(p) + ([COMMA] + (ItemsText(items) + rest))
  {
    hide PaddedText;
    assert ([p] + items)[1..] == items;
    Bracketed(PaddedText(p), [COMMA], ItemsText(items), rest);
  }

  lemma EntryShape(e: Entry, rest: Text)
    ensures EntryText(e) + rest ==
      e.before + ([QUOTE] + (PiecesText(e.key) + ([QUOTE] + (e.mid + ([COLON] + (PaddedText(e.value) + rest))))))
  {
    hide PaddedText, PiecesText, StringText;
    var s, v := StringText(e.key), PaddedText(e.value);
    Flat3(e.before + s + e.mid + [COLON], v, rest);
    Bracketed(e.before + s, e.mid, [COLON], v + rest);
    Flat3(e.before, s, e.mid + ([COLON] + (v + rest)));
    StringShape(e.key, e.mid + ([COLON] + (v + rest)));
  }

  lemma EntriesShape(e: Entry, entries: seq<Entry>, rest: Text)
    ensures EntriesText([e]) == EntryText(e)
    ensures entries != [] ==>
      EntriesText([e] + entries) + rest == EntryText(e) + ([COMMA] + (EntriesText(entries) + rest))
  {
    hide EntryText;
    assert ([e] + entries)[1..] == entries;
    Bracketed(EntryText(e), [COMMA], EntriesText(entries), rest);
  }
}

/** Soundness of the reading: what is read is well-formed, and its text is what was consumed. */
module JsonReading {
  import opened Prelude
  import opened JsonGrammar
  import opened JsonScan
  import opened JsonShape

  lemma {:induction false} WhiteSound(t: Text)
    ensures var (w, rest) := SplitWhite(t); t == w + rest && AllWhite(w, false) && (rest == [] || !White(rest[0]))
  {
    if t == [] || !White(t[0]) {
    } else {
      WhiteSound(t[1..]);
      Uncons(t);
      var (w, rest) := SplitWhite(t[1..]);
      Flat3([t[0]], w, rest);
    }
  }

  lemma {:induction false} DigitsSound(t: Text)
    ensures var (d, rest) := SplitDigits(t); t == d + rest && AllDigits(d)
  {
    if t == [] || !Digit(t[0]) {
    } else {
      DigitsSound(t[1..]);
      Uncons(t);
      var (d, rest) := SplitDigits(t[1..]);
      Flat3([t[0]], d, rest);
    }
  }

  lemma {:induction false} PiecesSound(t: Text)
    requires ScanPieces(t).Some?
    ensures var (ps, rest) := ScanPieces(t).value; PiecesOk(ps) && t == PiecesText(ps) + ([QUOTE] + rest)
    decreases |t|
  {
    var (ps, rest) := ScanPieces(t).value;
    if t[0] == QUOTE {
      Uncons(t);
    } else {
      var (p, tail) := FirstPiece(t);
      PiecesSound(tail);
      PiecesShape(p, ScanPieces(tail).value.0, [QUOTE] + rest);
      hide PiecesText, PieceText, PieceOk;
    }
  }

  /** The piece at the head of a text whose string is closed further on. */
  ghost function FirstPiece(t: Text): (r: (Piece, Text))
    requires ScanPieces(t).Some? && t[0] != QUOTE
    ensures t == PieceText(r.0) + r.1 && PieceOk(r.0) && |r.1| < |t|
    ensures ScanPieces(r.1).Some?
    ensures ScanPieces(t).value == ([r.0] + ScanPieces(r.1).value.0, ScanPieces(r.1).value.1)
  {
    if t[0] == BACKSLASH then
      if t[1] == LETTER_U then (Hex(t[2..6]), t[6..]) else (Short(t[1]), t[2..])
    else (Raw(t[0]), t[1..])
  }

  lemma FractionSound(t: Text)
    ensures
      var (f, rest) := ScanFraction(t);
      t == FractionText(f) + rest && (f.Some? ==> f.value != [] && AllDigits(f.value))
  {
    if ScanFraction(t).0.Some? {
      DigitsSound(t[1..]);
      Uncons(t);
      var (d, rest) := SplitDigits(t[1..]);
      Flat3([POINT], d, rest);
    }
  }

  lemma SignSound(t: Text)
    ensures var (sign, rest) := ScanSign(t); t == sign + rest && sign in {[], [PLUS], [MINUS]}
  {
    if t != [] {
      Uncons(t);
    }
  }

  lemma ExponentSound(t: Text)
    ensures
      var (e, rest) := ScanExponent(t);
      t == ExponentText(e) + rest && (e.Some? ==> ExponentOk(e.value))
  {
    if ScanExponent(t).0.Some? {
      Uncons(t);
      SignSound(t[1..]);
      DigitsSound(ScanSign(t[1..]).1);
      var (e, rest) := ScanExponent(t);
      ExponentShape(e.value, rest);
      hide SplitDigits, ScanSign, ExponentText;
    }
  }

  lemma WholeSound(t: Text)
    ensures
      var (whole, rest) := ScanWhole(t);
      t == whole + rest && (whole != [] ==> WholeOk(whole))
  {
    DigitsSound(t);
    if StartsWith(t, 0x30) {
      Uncons(t);
    } else if SplitDigits(t).0 != [] {
      assert SplitDigits(t).0[0] == t[0];
    }
  }

  lemma NumeralSound(t: Text)
    requires ScanNumeral(t).Some?
    ensures var (n, rest) := ScanNumeral(t).value; NumeralOk(n) && t == NumeralText(n) + rest
  {
    hide ScanWhole, ScanFraction, ScanExponent, WholeOk, ExponentOk, NumeralText;
    var (n, rest) := ScanNumeral(t).value;
    var u := if n.minus then t[1..] else t;
    assert t == (if n.minus then [MINUS] else []) + u;
    WholeSound(u);
    FractionSound(ScanWhole(u).1);
    ExponentSound(ScanFraction(ScanWhole(u).1).1);
    NumeralShape(n, rest);
    hide FractionText, ExponentText;
  }

  /** What a read tree promises about the text it was read from. */
  ghost predicate ReadsTo(t: Text, tree: Tree, rest: Text, unique: bool) {
    TreeOk(tree, false) && t == TreeText(tree) + rest && (unique ==> KeysDistinct(tree))
  }

  lemma AtomSound(t: Text, unique: bool)
    requires ScanAtom(t).Some?
    ensures ReadsTo(t, ScanAtom(t).value.0, ScanAtom(t).value.1, unique)
  {
    hide ScanNumeral, NumeralText, NumeralOk;
    if !(WordText(True) <= t || WordText(False) <= t || WordText(Null) <= t) {
      NumeralSound(t);
    }
  }

  lemma {:induction false} TreeSound(t: Text, unique: bool)
    requires ScanTree(t, unique).Some?
    ensures ReadsTo(t, ScanTree(t, unique).value.0, ScanTree(t, unique).value.1, unique)
    decreases |t|, 2
  {
    hide ScanObject, ScanArray, ScanPieces, ScanAtom, StringText, PiecesText, PiecesOk;
    if t[0] == OPEN_BRACE {
      hide ReadsTo;
      ObjectSound(t[1..], unique);
      Uncons(t);
    } else if t[0] == OPEN_BRACKET {
      hide ReadsTo;
      ArraySound(t[1..], unique);
      Uncons(t);
    } else if t[0] == QUOTE {
      PiecesSound(t[1..]);
      Uncons(t);
      var (ps, rest) := ScanPieces(t[1..]).value;
      StringShape(ps, rest);
    } else {
      hide ReadsTo;
      AtomSound(t, unique);
    }
  }

  lemma {:induction false} ObjectSound(t: Text, unique: bool)
    requires ScanObject(t, unique).Some?
    ensures ReadsTo([OPEN_BRACE] + t, ScanObject(t, unique).value.0, ScanObject(t, unique).value.1, unique)
    decreases |t|, 6
  {
    hide ScanEntries, SplitWhite, EntriesText, EntryOk, FreshKeys;
    var (tree, rest) := ScanObject(t, unique).value;
    WhiteSound(t);
    var (inside, u) := SplitWhite(t);
    if StartsWith(u, CLOSE_BRACE) {
      Uncons(u);
      Bracketed([OPEN_BRACE], inside, [CLOSE_BRACE], rest);
    } else {
      EntriesSound(t, {}, unique);
      Bracketed([OPEN_BRACE], EntriesText(tree.members), [CLOSE_BRACE], rest);
      if unique {
        FreshAreDistinct(tree.members, {});
      }
    }
  }

  lemma {:induction false} ArraySound(t: Text, unique: bool)
    requires ScanArray(t, unique).Some?
    ensures ReadsTo([OPEN_BRACKET] + t, ScanArray(t, unique).value.0, ScanArray(t, unique).value.1, unique)
    decreases |t|, 5
  {
    hide ScanItems, SplitWhite, ItemsText, PaddedOk;
    var (tree, rest) := ScanArray(t, unique).value;
    WhiteSound(t);
    var (inside, u) := SplitWhite(t);
    if StartsWith(u, CLOSE_BRACKET) {
      Uncons(u);
      Bracketed([OPEN_BRACKET], inside, [CLOSE_BRACKET], rest);
    } else {
      ItemsSound(t, unique);
      Bracketed([OPEN_BRACKET], ItemsText(tree.items), [CLOSE_BRACKET], rest);
    }
  }

  lemma {:induction false} PaddedSound(t: Text, unique: bool)
    requires ScanPadded(t, unique).Some?
    ensures
      var (p, rest) := ScanPadded(t, unique).value;
      PaddedOk(p, false) && t == PaddedText(p) + rest && (unique ==> KeysDistinct(p.tree))
    decreases |t|, 3
  {
    hide ScanTree, SplitWhite, TreeOk, TreeText, KeysDistinct, PaddedText, AllWhite;
    var (p, rest) := ScanPadded(t, unique).value;
    WhiteSound(t);
    TreeSound(SplitWhite(t).1, unique);
    WhiteSound(ScanTree(SplitWhite(t).1, unique).value.1);
    PaddedShape(p, rest);
  }

  lemma {:induction false} ItemsSound(t: Text, unique: bool)
    requires ScanItems(t, unique).Some?
    ensures
      var (items, rest) := ScanItems(t, unique).value;
      && items != [] && (forall p :: p in items ==> PaddedOk(p, false) && (unique ==> KeysDistinct(p.tree)))
      && t == ItemsText(items) + ([CLOSE_BRACKET] + rest)
    decreases |t|, 4
  {
    hide PaddedText, PaddedOk, KeysDistinct, ScanPadded, ItemsText;
    PaddedSound(t, unique);
    var (items, rest) := ScanItems(t, unique).value;
    var (item, u) := ScanPadded(t, unique).value;
    Uncons(u);
    if StartsWith(u, CLOSE_BRACKET) {
      ItemsShape(item, [], []);
    } else {
      ItemsSound(u[1..], unique);
      ItemsShape(item, ScanItems(u[1..], unique).value.0, [CLOSE_BRACKET] + rest);
    }
  }

  /** No key of the entries repeats another one or is among `keys`. */
  ghost predicate FreshKeys(entries: seq<Entry>, keys: set<Text>) {
    && (forall e :: e in entries ==> KeyOf(e) !in keys)
    && (forall i, j :: 0 <= i < j < |entries| ==> KeyOf(entries[i]) != KeyOf(entries[j]))
  }

  lemma FreshAreDistinct(entries: seq<Entry>, keys: set<Text>)
    requires FreshKeys(entries, keys)
    ensures forall i, j :: 0 <= i < j < |entries| ==> KeyOf(entries[i]) != KeyOf(entries[j])
  {
  }

  lemma FreshKeysCons(e: Entry, entries: seq<Entry>, keys: set<Text>)
    ensures FreshKeys([e] + entries, keys) <==> KeyOf(e) !in keys && FreshKeys(entries, keys + {KeyOf(e)})
  {
    hide KeyOf;
    var all := [e] + entries;
    if FreshKeys(all, keys) {
      assert all[0] == e;
      forall x | x in entries ensures KeyOf(x) !in keys + {KeyOf(e)} {
        var i :| 0 <= i < |entries| && entries[i] == x;
        assert all[i + 1] == x;
      }
      forall i, j | 0 <= i < j < |entries| ensures KeyOf(entries[i]) != KeyOf(entries[j]) {
        assert all[i + 1] == entries[i] && all[j + 1] == entries[j];
      }
    }
  }

  lemma FreshKeyAlone(e: Entry, keys: set<Text>)
    ensures FreshKeys([e], keys) <==> KeyOf(e) !in keys
  {
    hide KeyOf;
    assert e in [e];
  }

  lemma {:induction false} EntrySound(t: Text, keys: set<Text>, unique: bool)
    requires ScanEntry(t, keys, unique).Some?
    ensures
      var (e, rest) := ScanEntry(t, keys, unique).value;
      && EntryOk(e, false) && t == EntryText(e) + rest
      && (unique ==> KeysDistinct(e.value.tree) && KeyOf(e) !in keys)
    decreases |t|, 4
  {
    hide PaddedText, PaddedOk, KeysDistinct, ScanPadded, ScanPieces, PiecesText, PiecesOk, SplitWhite, EntryText,
      DecodeAll, AllWhite;
    var (e, rest) := ScanEntry(t, keys, unique).value;
    WhiteSound(t);
    var u := SplitWhite(t).1;
    Uncons(u);
    PiecesSound(u[1..]);
    var r := ScanPieces(u[1..]).value.1;
    WhiteSound(r);
    var v := SplitWhite(r).1;
    Uncons(v);
    PaddedSound(v[1..], unique);
    EntryShape(e, rest);
  }

  lemma {:induction false} EntriesSound(t: Text, keys: set<Text>, unique: bool)
    requires ScanEntries(t, keys, unique).Some?
    ensures
      var (entries, rest) := ScanEntries(t, keys, unique).value;
      && entries != []
      && (forall e :: e in entries ==> EntryOk(e, false) && (unique ==> KeysDistinct(e.value.tree)))
      && (unique ==> FreshKeys(entries, keys))
      && t == EntriesText(entries) + ([CLOSE_BRACE] + rest)
    decreases |t|, 5
  {
    hide EntryText, EntryOk, KeysDistinct, ScanEntry, KeyOf, FreshKeys, EntriesText;
    EntrySound(t, keys, unique);
    var (entries, rest) := ScanEntries(t, keys, unique).value;
    var (e, u) := ScanEntry(t, keys, unique).value;
    Uncons(u);
    if StartsWith(u, CLOSE_BRACE) {
      EntriesShape(e, [], []);
      FreshKeyAlone(e, keys);
    } else {
      EntriesSound(u[1..], keys + {KeyOf(e)}, unique);
      var tail := ScanEntries(u[1..], keys + {KeyOf(e)}, unique).value.0;
      EntriesShape(e, tail, [CLOSE_BRACE] + rest);
      FreshKeysCons(e, tail, keys);
    }
  }
}
