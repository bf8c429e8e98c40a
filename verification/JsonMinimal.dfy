/**
 * How a canonical text spells strings, said without the function that spells
 * them: section 3.2.2.2 of RFC 8785.
 */
module JsonMinimal {
  import opened Prelude
  import opened JsonGrammar
  import opened JsonValue
  import opened JsonCanonical

  /** The seven characters with an escape of two units, and its letter. */
  const TWO_UNIT_ESCAPES: map<Unit, Unit> :=
    map[0x22 := 0x22, 0x5C := 0x5C, 0x08 := 0x62, 0x09 := 0x74, 0x0A := 0x6E, 0x0C := 0x66, 0x0D := 0x72]

  predicate LowerHex(u: Unit) { 0x30 <= u <= 0x39 || 0x61 <= u <= 0x66 }

  /** This is how unit `i` of a string is spelled. */
  predicate Spells(s: Text, i: nat, p: Piece)
    requires i < |s|
  {
    match p
    case Raw(u) => u == s[i] && u >= 0x20 && u != 0x22 && u != 0x5C && !Lone(s, i)
    case Short(letter) => s[i] in TWO_UNIT_ESCAPES && letter == TWO_UNIT_ESCAPES[s[i]]
    case Hex(d) =>
      && s[i] !in TWO_UNIT_ESCAPES && (s[i] < 0x20 || Lone(s, i))
      && |d| == 4 && LowerHex(d[0]) && LowerHex(d[1]) && LowerHex(d[2]) && LowerHex(d[3])
      && s[i] == Nibble(d[0]) * 4096 + Nibble(d[1]) * 256 + Nibble(d[2]) * 16 + Nibble(d[3])
  }

  function Nibble(u: Unit): int {
    if u <= 0x39 then u - 0x30 else u - 0x57
  }

  /** A spelling in which every unit of the string that it spells is written as it must be. */
  predicate Minimal(ps: seq<Piece>) {
    var s := DecodeAll(ps);
    |ps| == |s| && forall i :: 0 <= i < |s| ==> Spells(s, i, ps[i])
  }

  lemma QuotedUnitSpells(s: Text, i: nat, p: Piece)
    requires i < |s|
    ensures Spells(s, i, p) <==> p == QuotedUnit(s, i)
  {
    hide Escaped;
    if s[i] !in TWO_UNIT_ESCAPES && (s[i] < 0x20 || Lone(s, i)) && p.Hex? {
      EscapedSpells(s[i], p.digits);
    }
    EscapedIsHex(s[i]);
    hide Lone;
  }

  lemma EscapedIsHex(u: Unit)
    ensures Escaped(u).Hex?
  {
  }

  predicate HexSpells(u: Unit, d: Text) {
    && |d| == 4 && LowerHex(d[0]) && LowerHex(d[1]) && LowerHex(d[2]) && LowerHex(d[3])
    && u == Nibble(d[0]) * 4096 + Nibble(d[1]) * 256 + Nibble(d[2]) * 16 + Nibble(d[3])
  }

  lemma EscapedSpells(u: Unit, d: Text)
    ensures HexSpells(u, d) <==> Hex(d) == Escaped(u)
  {
    if |d| == 4 {
      if LowerHex(d[0]) && LowerHex(d[1]) && LowerHex(d[2]) && LowerHex(d[3]) {
        FourNibbles(u, Nibble(d[0]), Nibble(d[1]), Nibble(d[2]), Nibble(d[3]));
      }
      HexOfIs(u / 4096, d[0]);
      HexOfIs(u / 256 % 16, d[1]);
      HexOfIs(u / 16 % 16, d[2]);
      HexOfIs(u % 16, d[3]);
      FourHexDigits(u);
      assert d == [d[0], d[1], d[2], d[3]];
    }
    hide Nibble, LowerHex, HexOf;
  }

  lemma HexOfIs(v: nat, u: Unit)
    requires v < 16
    ensures u == HexOf(v) <==> LowerHex(u) && Nibble(u) == v
  {
  }

  lemma FourNibbles(u: int, a: int, b: int, c: int, d: int)
    requires 0 <= a < 16 && 0 <= b < 16 && 0 <= c < 16 && 0 <= d < 16
    ensures u == a * 4096 + b * 256 + c * 16 + d ==>
      u / 4096 == a && u / 256 % 16 == b && u / 16 % 16 == c && u % 16 == d
  {
    if u == a * 4096 + b * 256 + c * 16 + d {
      assert u / 16 == a * 256 + b * 16 + c;
      assert u / 256 == a * 16 + b;
    }
  }

  /** A spelling is minimal exactly when it is the one that JSON.stringify gives its string. */
  lemma MinimalIsQuoted(ps: seq<Piece>)
    ensures Minimal(ps) <==> ps == Quoted(DecodeAll(ps))
  {
    hide DecodeAll, Spells, QuotedUnit;
    var s := DecodeAll(ps);
    if |ps| == |s| {
      forall i | 0 <= i < |s| ensures Spells(s, i, ps[i]) <==> ps[i] == Quoted(s)[i] {
        QuotedUnitSpells(s, i, ps[i]);
      }
    }
  }

  // What that comes to.

  lemma {:induction false} RawText(ps: seq<Piece>, s: Text)
    requires |ps| == |s| && forall i :: 0 <= i < |s| ==> ps[i] == Raw(s[i])
    ensures PiecesText(ps) == s
  {
    if s == [] {
    } else {
      RawText(ps[1..], s[1..]);
      assert s == [s[0]] + s[1..];
    }
  }

  /** A string without quotes, backslashes, controls and lone surrogates is written as it is. */
  lemma PlainTextIsVerbatim(s: Text)
    requires WellFormed(s) && forall u :: u in s ==> u >= 0x20 && u != 0x22 && u != 0x5C
    ensures CanonicalText(String(s)) == [0x22] + s + [0x22]
  {
    hide PiecesText;
    forall i | 0 <= i < |s| ensures Quoted(s)[i] == Raw(s[i]) {
      assert s[i] in s && !Lone(s, i);
      QuotedUnitSpells(s, i, Raw(s[i]));
    }
    RawText(Quoted(s), s);
  }

  /** A character that is none of those is written in one of two ways. */
  lemma OneCharacter(u: Unit)
    requires u < 0x20 || u == 0x22 || u == 0x5C || 0xD800 <= u <= 0xDFFF
    ensures CanonicalText(String([u])) ==
      if u in TWO_UNIT_ESCAPES then [0x22, 0x5C, TWO_UNIT_ESCAPES[u], 0x22]
      else [0x22, 0x5C, 0x75, HexDigitOf(u / 4096), HexDigitOf(u / 256 % 16), HexDigitOf(u / 16 % 16),
            HexDigitOf(u % 16), 0x22]
  {
    var s: Text := [u];
    var d: Text := [HexDigitOf(u / 4096), HexDigitOf(u / 256 % 16), HexDigitOf(u / 16 % 16), HexDigitOf(u % 16)];
    var p := if u in TWO_UNIT_ESCAPES then Short(TWO_UNIT_ESCAPES[u]) else Hex(d);
    FourHexDigits(u);
    QuotedUnitSpells(s, 0, p);
    assert Quoted(s) == [p];
    OnePiece(p);
  }

  lemma OnePiece(p: Piece)
    ensures PiecesText([p]) == PieceText(p)
  {
    assert PiecesText([p]) == PieceText(p) + [];
  }

  /** The lower-case hexadecimal digit. */
  function HexDigitOf(d: nat): (u: Unit)
    requires d < 16
    ensures LowerHex(u) && Nibble(u) == d
  {
    if d < 10 then 0x30 + d else 0x57 + d
  }

  lemma {:induction false} ShorterPieces(ps: seq<Piece>, qs: seq<Piece>)
    requires |ps| == |qs| && forall i :: 0 <= i < |ps| ==> |PieceText(ps[i])| <= |PieceText(qs[i])|
    ensures |PiecesText(ps)| <= |PiecesText(qs)|
  {
    hide PieceText;
    if ps == [] {
    } else {
      ShorterPieces(ps[1..], qs[1..]);
    }
  }

  /** No other way to write a well-formed string is shorter. */
  lemma NoSpellingIsShorter(s: Text, ps: seq<Piece>)
    requires WellFormed(s) && PiecesOk(ps) && DecodeAll(ps) == s
    ensures |CanonicalText(String(s))| <= |StringText(ps)|
  {
    hide PiecesText, DecodeAll;
    DecodeAllAt(ps);
    forall i | 0 <= i < |s| ensures |PieceText(Quoted(s)[i])| <= |PieceText(ps[i])| {
      assert ps[i] in ps && !Lone(s, i);
      PieceLength(s, i, ps[i]);
    }
    ShorterPieces(Quoted(s), ps);
  }

  lemma PieceLength(s: Text, i: nat, p: Piece)
    requires i < |s| && PieceOk(p) && Decode(p) == s[i] && !Lone(s, i)
    ensures |PieceText(QuotedUnit(s, i))| <= |PieceText(p)|
  {
    hide Decode;
    match p
    case Raw(u) => RawDecodes(u);
    case Short(letter) => ShortDecodes(letter);
    case Hex(_) =>
  }

  lemma RawDecodes(u: Unit)
    ensures Decode(Raw(u)) == u
  {
  }

  lemma ShortDecodes(letter: Unit)
    requires ShortEscape(letter)
    ensures Decode(Short(letter)) in {0x22, 0x5C, 0x2F, 0x08, 0x09, 0x0A, 0x0C, 0x0D}
  {
  }
}
