/** The deterministic reading of a JSON text that packages/domain/src/strict-json.ts performs, as functions. */
module JsonScan {
  import opened Prelude
  import opened JsonGrammar

  /** What `whitespace` skips, and what is left. */
  function SplitWhite(t: Text): (r: (Text, Text))
    ensures |r.1| <= |t|
  {
    if t != [] && White(t[0]) then var (w, rest) := SplitWhite(t[1..]); ([t[0]] + w, rest) else ([], t)
  }

  function SplitDigits(t: Text): (r: (Text, Text))
    ensures |r.1| == |t| - |r.0|
  {
    if t != [] && Digit(t[0]) then var (d, rest) := SplitDigits(t[1..]); ([t[0]] + d, rest) else ([], t)
  }

  predicate StartsWith(t: Text, u: Unit) {
    t != [] && t[0] == u
  }

  // The numeral part of the regular expression: each group takes all it can.

  function ScanWhole(t: Text): (r: (Text, Text))
    ensures |r.1| == |t| - |r.0|
  {
    if StartsWith(t, 0x30) then ([0x30], t[1..]) else SplitDigits(t)
  }

  function ScanFraction(t: Text): (r: (Option<Text>, Text))
    ensures |r.1| <= |t|
  {
    if StartsWith(t, POINT) && SplitDigits(t[1..]).0 != []
    then (Some(SplitDigits(t[1..]).0), SplitDigits(t[1..]).1)
    else (None, t)
  }

  function ScanSign(t: Text): (r: (Text, Text))
    ensures |r.1| <= |t|
  {
    if StartsWith(t, PLUS) || StartsWith(t, MINUS) then ([t[0]], t[1..]) else ([], t)
  }

  function ScanExponent(t: Text): (r: (Option<Exponent>, Text))
    ensures |r.1| <= |t|
  {
    if StartsWith(t, 0x45) || StartsWith(t, 0x65) then
      var (sign, u) := ScanSign(t[1..]);
      var (digits, rest) := SplitDigits(u);
      if digits != [] then (Some(Exponent(t[0], sign, digits)), rest) else (None, t)
    else (None, t)
  }

  function ScanNumeral(t: Text): (r: Option<(Numeral, Text)>)
    ensures r.Some? ==> |r.value.1| < |t|
  {
    var minus := StartsWith(t, MINUS);
    var (whole, u) := ScanWhole(if minus then t[1..] else t);
    if whole == [] then None
    else
      var (fraction, v) := ScanFraction(u);
      var (exponent, rest) := ScanExponent(v);
      Some((Numeral(minus, whole, fraction, exponent), rest))
  }

  function ScanAtom(t: Text): (r: Option<(Tree, Text)>)
    ensures r.Some? ==> |r.value.1| < |t|
  {
    if WordText(True) <= t then Some((Word(True), t[4..]))
    else if WordText(False) <= t then Some((Word(False), t[5..]))
    else if WordText(Null) <= t then Some((Word(Null), t[4..]))
    else
      var n := ScanNumeral(t);
      if n.Some? then Some((Num(n.value.0), n.value.1)) else None
  }

  /** The rest of a string after its opening quote. */
  function ScanPieces(t: Text): (r: Option<(seq<Piece>, Text)>)
    ensures r.Some? ==> |r.value.1| < |t|
    decreases |t|
  {
    if t == [] then None
    else if t[0] == QUOTE then Some(([], t[1..]))
    else if t[0] == BACKSLASH then
      if |t| < 2 then None
      else if t[1] == LETTER_U then
        if |t| >= 6 && PieceOk(Hex(t[2..6])) then Prepend(Hex(t[2..6]), ScanPieces(t[6..])) else None
      else if ShortEscape(t[1]) then Prepend(Short(t[1]), ScanPieces(t[2..]))
      else None
    else if t[0] < 0x20 then None
    else Prepend(Raw(t[0]), ScanPieces(t[1..]))
  }

  function Prepend<T>(head: T, tail: Option<(seq<T>, Text)>): Option<(seq<T>, Text)> {
    if tail.Some? then Some(([head] + tail.value.0, tail.value.1)) else None
  }

  // Values. With `unique`, an object is refused at the first key it already has.

  function ScanTree(t: Text, unique: bool): (r: Option<(Tree, Text)>)
    ensures r.Some? ==> |r.value.1| < |t|
    decreases |t|, 2
  {
    if t == [] then None
    else if t[0] == OPEN_BRACE then ScanObject(t[1..], unique)
    else if t[0] == OPEN_BRACKET then ScanArray(t[1..], unique)
    else if t[0] == QUOTE then
      var s := ScanPieces(t[1..]);
      if s.Some? then Some((Str(s.value.0), s.value.1)) else None
    else ScanAtom(t)
  }

  function ScanArray(t: Text, unique: bool): (r: Option<(Tree, Text)>)
    ensures r.Some? ==> |r.value.1| < |t|
    decreases |t|, 5
  {
    var (inside, u) := SplitWhite(t);
    if StartsWith(u, CLOSE_BRACKET) then Some((EmptyArr(inside), u[1..]))
    else
      var items := ScanItems(t, unique);
      if items.Some? then Some((Arr(items.value.0), items.value.1)) else None
  }

  function ScanItems(t: Text, unique: bool): (r: Option<(seq<Padded>, Text)>)
    ensures r.Some? ==> |r.value.1| < |t|
    decreases |t|, 4
  {
    var item := ScanPadded(t, unique);
    if item.None? then None
    else
      var rest := item.value.1;
      if StartsWith(rest, CLOSE_BRACKET) then Some(([item.value.0], rest[1..]))
      else if StartsWith(rest, COMMA) then Prepend(item.value.0, ScanItems(rest[1..], unique))
      else None
  }

  /** A value and the white space on both sides. */
  function ScanPadded(t: Text, unique: bool): (r: Option<(Padded, Text)>)
    ensures r.Some? ==> |r.value.1| < |t|
    decreases |t|, 3
  {
    var (before, u) := SplitWhite(t);
    var tree := ScanTree(u, unique);
    if tree.None? then None
    else
      var (after, rest) := SplitWhite(tree.value.1);
      Some((Padded(before, tree.value.0, after), rest))
  }

  function ScanObject(t: Text, unique: bool): (r: Option<(Tree, Text)>)
    ensures r.Some? ==> |r.value.1| < |t|
    decreases |t|, 6
  {
    var (inside, u) := SplitWhite(t);
    if StartsWith(u, CLOSE_BRACE) then Some((EmptyObj(inside), u[1..]))
    else
      var entries := ScanEntries(t, {}, unique);
      if entries.Some? then Some((Obj(entries.value.0), entries.value.1)) else None
  }

  function ScanEntries(t: Text, keys: set<Text>, unique: bool): (r: Option<(seq<Entry>, Text)>)
    ensures r.Some? ==> |r.value.1| < |t|
    decreases |t|, 5
  {
    var entry := ScanEntry(t, keys, unique);
    if entry.None? then None
    else
      var rest := entry.value.1;
      if StartsWith(rest, CLOSE_BRACE) then Some(([entry.value.0], rest[1..]))
      else if StartsWith(rest, COMMA) then
        Prepend(entry.value.0, ScanEntries(rest[1..], keys + {KeyOf(entry.value.0)}, unique))
      else None
  }

  function ScanEntry(t: Text, keys: set<Text>, unique: bool): (r: Option<(Entry, Text)>)
    ensures r.Some? ==> |r.value.1| < |t|
    decreases |t|, 4
  {
    var (before, u) := SplitWhite(t);
    if !StartsWith(u, QUOTE) then None
    else
      var key := ScanPieces(u[1..]);
      if key.None? || (unique && DecodeAll(key.value.0) in keys) then None
      else
        var (mid, v) := SplitWhite(key.value.1);
        if !StartsWith(v, COLON) then None
        else
          var value := ScanPadded(v[1..], unique);
          if value.None? then None
          else Some((Entry(before, key.value.0, mid, value.value.0), value.value.1))
  }

  /** A whole text: one value and nothing but white space around it. */
  function ScanText(t: Text, unique: bool): Option<Padded> {
    var p := ScanPadded(t, unique);
    if p.Some? && p.value.1 == [] then Some(p.value.0) else None
  }
}
