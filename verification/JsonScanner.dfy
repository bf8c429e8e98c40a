/** The duplicate-key scanner of packages/domain/src/strict-json.ts, with its index field. */
module JsonScanner {
  import opened Prelude
  import opened JsonGrammar
  import opened JsonScan
  import opened JsonShape
  import JsonReading
  import JsonAccepting

  /** Where a reading ends. */
  function End<T>(r: Option<(T, Text)>): Option<Text> {
    if r.Some? then Some(r.value.1) else None
  }

  /** `JSON.parse` of a string literal. */
  function Unquoted(literal: Text): Option<Text> {
    if !StartsWith(literal, QUOTE) then None
    else
      var r := ScanPieces(literal[1..]);
      if r.Some? && r.value.1 == [] then Some(DecodeAll(r.value.0)) else None
  }

  /** A literal that the scanner has walked over is decoded to the key that was read. */
  lemma LiteralDecodes(t: Text, literal: Text, rest: Text)
    requires StartsWith(t, QUOTE) && End(ScanPieces(t[1..])) == Some(rest) && t == literal + rest
    ensures Unquoted(literal) == Some(DecodeAll(ScanPieces(t[1..]).value.0))
  {
    hide ScanPieces, PiecesText, PiecesOk, DecodeAll;
    var ps := ScanPieces(t[1..]).value.0;
    JsonReading.PiecesSound(t[1..]);
    Uncons(t);
    StringShape(ps, rest);
    assert |StringText(ps)| == |literal|;
    assert t[..|literal|] == StringText(ps) == literal;
    StringShape(ps, []);
    assert StringText(ps) + [] == StringText(ps);
    Cons(QUOTE, PiecesText(ps) + ([QUOTE] + []));
    JsonAccepting.PiecesScan(ps, []);
  }

  lemma SplitTwice(t: Text)
    ensures SplitWhite(SplitWhite(t).1).1 == SplitWhite(t).1
  {
    JsonReading.WhiteSound(t);
  }

  /** The keys and the end of the members do not depend on the white space before the first one. */
  lemma EntriesAfterWhite(t: Text, keys: set<Text>)
    ensures End(ScanEntries(SplitWhite(t).1, keys, true)) == End(ScanEntries(t, keys, true))
  {
    hide ScanPadded, ScanPieces, SplitWhite, DecodeAll;
    SplitTwice(t);
    var u := SplitWhite(t).1;
    var a, b := ScanEntry(t, keys, true), ScanEntry(u, keys, true);
    assert a.Some? == b.Some?;
    if a.Some? {
      assert a.value.1 == b.value.1 && KeyOf(a.value.0) == KeyOf(b.value.0);
    }
    hide ScanEntry, KeyOf;
  }

  lemma ItemsAfterWhite(t: Text)
    ensures End(ScanItems(SplitWhite(t).1, true)) == End(ScanItems(t, true))
  {
    hide ScanTree, SplitWhite;
    SplitTwice(t);
    var u := SplitWhite(t).1;
    assert End(ScanPadded(u, true)) == End(ScanPadded(t, true));
    hide ScanPadded;
  }

  class DuplicateKeyScanner {
    const source: Text
    var index: nat

    constructor (source: Text)
      ensures this.source == source && index == 0
    {
      this.source := source;
      index := 0;
    }

    /** What has not been read yet. */
    function Rest(): Text
      reads this
    {
      if index <= |source| then source[index..] else []
    }

    predicate At(u: Unit)
      reads this
      ensures At(u) == StartsWith(Rest(), u)
    {
      index < |source| && source[index] == u
    }

    method Advance()
      requires index < |source|
      modifies this`index
      ensures index == old(index) + 1 && Rest() == old(Rest())[1..]
    {
      index := index + 1;
    }

    /** `scan`: returns normally (true) exactly on a text with no repeated key. */
    method Scan() returns (ok: bool)
      requires index == 0
      modifies this`index
      ensures ok <==> exists p: Padded :: source == PaddedText(p) && PaddedOk(p, false) && KeysDistinct(p.tree)
    {
      ghost var t := Rest();
      assert t == source;
      ok := Value();
      if ok {
        Whitespace();
        ok := index == |source|;
      }
      assert ok == ScanText(source, true).Some? by {
        hide ScanTree, SplitWhite;
      }
      ScanMeaning(source, true);
    }

    method Whitespace()
      requires index <= |source|
      modifies this`index
      ensures old(index) <= index <= |source| && Rest() == SplitWhite(old(Rest())).1
    {
      while index < |source| && White(source[index])
        invariant old(index) <= index <= |source|
        invariant SplitWhite(Rest()).1 == SplitWhite(old(Rest())).1
      {
        assert source[index..][1..] == source[index + 1..];
        Advance();
      }
    }

    method Value() returns (ok: bool)
      requires index <= |source|
      modifies this`index
      ensures ok ==> old(index) < index <= |source|
      ensures End(ScanTree(SplitWhite(old(Rest())).1, true)) == if ok then Some(Rest()) else None
      decreases |source| - index, 1
    {
      Whitespace();
      ghost var t := Rest();
      hide ScanObject, ScanArray, ScanPieces, ScanAtom, SplitWhite;
      if At(OPEN_BRACE) {
        ok := Object();
      } else if At(OPEN_BRACKET) {
        ok := Array();
      } else if At(QUOTE) {
        var key := String();
        ok := key.Some?;
      } else {
        var matched := ScanAtom(source[index..]);
        ok := matched.Some?;
        if ok {
          JsonReading.AtomSound(t, true);
          TakeMatched(source[index..], matched.value.0, matched.value.1);
          index := index + |TreeText(matched.value.0)|;
          assert Rest() == matched.value.1;
        }
      }
    }

    method Object() returns (ok: bool)
      requires index <= |source| && At(OPEN_BRACE)
      modifies this`index
      ensures ok ==> old(index) < index <= |source|
      ensures End(ScanObject(old(Rest())[1..], true)) == if ok then Some(Rest()) else None
      decreases |source| - index, 0
    {
      hide ScanEntries, SplitWhite, ScanPieces, ScanTree, DecodeAll;
      Advance();
      ghost var t := Rest();
      Whitespace();
      var keys: set<Text> := {};
      if At(CLOSE_BRACE) {
        Advance();
        return true;
      }
      EntriesAfterWhite(t, {});
      assert End(ScanObject(t, true)) == End(ScanEntries(Rest(), keys, true));
      hide ScanObject;
      while true
        invariant old(index) < index <= |source|
        invariant End(ScanObject(t, true)) == End(ScanEntries(Rest(), keys, true))
        decreases |source| - index
      {
        ghost var start := Rest();
        EntriesStep(start, keys);
        Whitespace();
        if !At(QUOTE) {
          return false;
        }
        var key := String();
        if key.None? || key.value in keys {
          return false;
        }
        Whitespace();
        if !At(COLON) {
          return false;
        }
        Advance();
        ok := Value();
        if !ok {
          return false;
        }
        keys := keys + {key.value};
        Whitespace();
        if At(CLOSE_BRACE) {
          Advance();
          return true;
        }
        if !At(COMMA) {
          return false;
        }
        Advance();
      }
    }

    method Array() returns (ok: bool)
      requires index <= |source| && At(OPEN_BRACKET)
      modifies this`index
      ensures ok ==> old(index) < index <= |source|
      ensures End(ScanArray(old(Rest())[1..], true)) == if ok then Some(Rest()) else None
      decreases |source| - index, 0
    {
      hide ScanItems, SplitWhite, ScanTree;
      Advance();
      ghost var t := Rest();
      Whitespace();
      if At(CLOSE_BRACKET) {
        Advance();
        return true;
      }
      ItemsAfterWhite(t);
      assert End(ScanArray(t, true)) == End(ScanItems(Rest(), true));
      hide ScanArray;
      while true
        invariant old(index) < index <= |source|
        invariant End(ScanArray(t, true)) == End(ScanItems(Rest(), true))
        decreases |source| - index
      {
        ItemsStep(Rest());
        ok := Value();
        if !ok {
          return false;
        }
        Whitespace();
        if At(CLOSE_BRACKET) {
          Advance();
          return true;
        }
        if !At(COMMA) {
          return false;
        }
        Advance();
      }
    }

    method String() returns (key: Option<Text>)
      requires index <= |source| && At(QUOTE)
      modifies this`index
      ensures key.Some? ==> old(index) < index <= |source|
      ensures End(ScanPieces(old(Rest())[1..])) == if key.Some? then Some(Rest()) else None
      ensures key.Some? ==> key.value == DecodeAll(ScanPieces(old(Rest())[1..]).value.0)
    {
      hide ScanPieces, Unquoted, DecodeAll, PieceOk, ShortEscape;
      var start := index;
      ghost var t := Rest()[1..];
      index := index + 1;
      while index < |source|
        invariant start < index <= |source|
        invariant End(ScanPieces(source[index..])) == End(ScanPieces(t))
      {
        PieceStep(source, index);
        if source[index] == QUOTE {
          index := index + 1;
          KeyRead(source, start, index);
          return Unquoted(source[start..index]);
        }
        if source[index] == BACKSLASH {
          index := index + 1;
          if index < |source| && source[index] == LETTER_U {
            var hex := Slice(source, index + 1, index + 5);
            if !PieceOk(Hex(hex)) {
              return None;
            }
            index := index + 5;
            continue;
          }
          if index >= |source| || !ShortEscape(source[index]) {
            return None;
          }
        } else if source[index] < 0x20 {
          return None;
        }
        index := index + 1;
      }
      NothingLeft(source[index..]);
      return None;
    }
  }

  lemma NothingLeft(t: Text)
    requires t == []
    ensures ScanPieces(t).None?
  {
  }

  lemma KeyRead(source: Text, i: nat, j: nat)
    requires i <= j <= |source| && StartsWith(source[i..], QUOTE)
    requires End(ScanPieces(source[i..][1..])) == Some(source[j..])
    ensures Unquoted(source[i..j]) == Some(DecodeAll(ScanPieces(source[i..][1..]).value.0))
  {
    hide ScanPieces, Unquoted, DecodeAll;
    assert source[i..] == source[i..j] + source[j..];
    LiteralDecodes(source[i..], source[i..j], source[j..]);
  }

  lemma TakeMatched(t: Text, tree: Tree, rest: Text)
    requires t == TreeText(tree) + rest
    ensures |TreeText(tree)| <= |t| && t[|TreeText(tree)|..] == rest
  {
    hide TreeText;
  }

  /** `text.slice(i, j)` */
  function Slice(t: Text, i: nat, j: nat): Text
    requires i <= |t|
  {
    if j < i then [] else if j <= |t| then t[i..j] else t[i..]
  }

  lemma HexLength(hex: Text)
    ensures PieceOk(Hex(hex)) ==> |hex| == 4
  {
  }

  /** One turn of the loop of `string`. */
  lemma PieceStep(source: Text, i: nat)
    requires i < |source|
    ensures
      var r := End(ScanPieces(source[i..]));
      if source[i] == QUOTE then r == Some(source[i + 1..])
      else if source[i] == BACKSLASH then
        if i + 1 < |source| && source[i + 1] == LETTER_U then
          if PieceOk(Hex(Slice(source, i + 2, i + 6))) then i + 6 <= |source| && r == End(ScanPieces(source[i + 6..]))
          else r == None
        else if i + 1 < |source| && ShortEscape(source[i + 1]) then r == End(ScanPieces(source[i + 2..]))
        else r == None
      else if source[i] < 0x20 then r == None
      else r == End(ScanPieces(source[i + 1..]))
  {
    var t := source[i..];
    assert t[1..] == source[i + 1..];
    if i + 2 <= |source| {
      assert t[2..] == source[i + 2..];
      HexLength(Slice(source, i + 2, i + 6));
    }
    if i + 6 <= |source| {
      assert t[2..6] == source[i + 2..i + 6] && t[6..] == source[i + 6..];
    }
  }

  /** One turn of the loop of `object`. */
  lemma EntriesStep(t: Text, keys: set<Text>)
    ensures
      var r, u := End(ScanEntries(t, keys, true)), SplitWhite(t).1;
      if !StartsWith(u, QUOTE) then r == None
      else
        var key := ScanPieces(u[1..]);
        if key.None? || DecodeAll(key.value.0) in keys then r == None
        else
          var v := SplitWhite(key.value.1).1;
          if !StartsWith(v, COLON) then r == None
          else
            var item := End(ScanTree(SplitWhite(v[1..]).1, true));
            if item.None? then r == None
            else
              var rest := SplitWhite(item.value).1;
              if StartsWith(rest, CLOSE_BRACE) then r == Some(rest[1..])
              else if StartsWith(rest, COMMA) then
                r == End(ScanEntries(rest[1..], keys + {DecodeAll(key.value.0)}, true))
              else r == None
  {
    hide ScanTree, SplitWhite, ScanPieces, DecodeAll;
    var u := SplitWhite(t).1;
    if StartsWith(u, QUOTE) && ScanPieces(u[1..]).Some? {
      var v := SplitWhite(ScanPieces(u[1..]).value.1).1;
      if StartsWith(v, COLON) {
        var value := ScanPadded(v[1..], true);
        assert value.Some? == ScanTree(SplitWhite(v[1..]).1, true).Some?;
        hide ScanPadded;
      }
    }
  }

  /** One turn of the loop of `array`. */
  lemma ItemsStep(t: Text)
    ensures
      var r := End(ScanItems(t, true));
      var item := End(ScanTree(SplitWhite(t).1, true));
      if item.None? then r == None
      else
        var rest := SplitWhite(item.value).1;
        if StartsWith(rest, CLOSE_BRACKET) then r == Some(rest[1..])
        else if StartsWith(rest, COMMA) then r == End(ScanItems(rest[1..], true))
        else r == None
  {
    hide ScanTree, SplitWhite;
  }

  /** A reading exists exactly when the text is that of a well-formed tree. */
  lemma ScanMeaning(t: Text, unique: bool)
    ensures ScanText(t, unique).Some? <==>
      exists p: Padded :: t == PaddedText(p) && PaddedOk(p, false) && (unique ==> KeysDistinct(p.tree))
  {
    hide ScanText, PaddedText, PaddedOk, KeysDistinct;
    forall p: Padded
      ensures ScanText(t, unique) == Some(p) <==>
        t == PaddedText(p) && PaddedOk(p, false) && (unique ==> KeysDistinct(p.tree))
    {
      JsonAccepting.ScanIsExact(t, p, unique);
    }
    if ScanText(t, unique).Some? {
      var p := ScanText(t, unique).value;
      assert t == PaddedText(p) && PaddedOk(p, false) && (unique ==> KeysDistinct(p.tree));
    }
    if p: Padded :| t == PaddedText(p) && PaddedOk(p, false) && (unique ==> KeysDistinct(p.tree)) {
      assert ScanText(t, unique) == Some(p);
    }
  }
}
