/** The canonical form of section 3.2 of RFC 8785, and the tree it is the text of. */
module JsonCanonical {
  import opened Prelude
  import opened CodeUnitOrder
  import opened JsonGrammar
  import opened JsonNumber
  import opened JsonValue
  import Doubles

  predicate High(u: Unit) { 0xD800 <= u <= 0xDBFF }

  predicate Low(u: Unit) { 0xDC00 <= u <= 0xDFFF }

  /** The unit at `i` is half of no surrogate pair. */
  predicate Lone(s: Text, i: nat)
    requires i < |s|
  {
    || (High(s[i]) && !(i + 1 < |s| && Low(s[i + 1])))
    || (Low(s[i]) && !(i > 0 && High(s[i - 1])))
  }

  predicate WellFormed(s: Text) {
    forall i :: 0 <= i < |s| ==> !Lone(s, i)
  }

  /** The strings assertUnicodeScalarString lets through: also those whose only fault is a high surrogate at the end. */
  predicate Tolerated(s: Text) {
    WellFormed(s) || (High(s[|s| - 1]) && WellFormed(s[..|s| - 1]))
  }

  // Strings, as JSON.stringify writes them.

  function HexOf(d: nat): (u: Unit)
    requires d < 16
    ensures HexDigit(u) && HexValue(u) == d
  {
    if d < 10 then 0x30 + d else 0x61 + d - 10
  }

  function Escaped(u: Unit): (p: Piece)
    ensures PieceOk(p) && Decode(p) == u
  {
    var digits: Text := [HexOf(u / 4096), HexOf(u / 256 % 16), HexOf(u / 16 % 16), HexOf(u % 16)];
    FourHexDigits(u);
    Hex(digits)
  }

  lemma FourHexDigits(u: Unit)
    ensures u / 4096 < 16 && u == u / 4096 * 4096 + u / 256 % 16 * 256 + u / 16 % 16 * 16 + u % 16
  {
  }

  function QuotedUnit(s: Text, i: nat): (p: Piece)
    requires i < |s|
    ensures PieceOk(p) && Decode(p) == s[i]
  {
    var u := s[i];
    if u == QUOTE || u == BACKSLASH then Short(u)
    else if u == 0x08 then Short(0x62)
    else if u == 0x09 then Short(0x74)
    else if u == 0x0A then Short(0x6E)
    else if u == 0x0C then Short(0x66)
    else if u == 0x0D then Short(0x72)
    else if u < 0x20 || Lone(s, i) then Escaped(u)
    else Raw(u)
  }

  function Quoted(s: Text): (ps: seq<Piece>)
    ensures |ps| == |s| && PiecesOk(ps)
    ensures forall i :: 0 <= i < |s| ==> ps[i] == QuotedUnit(s, i)
  {
    seq(|s|, i requires 0 <= i < |s| => QuotedUnit(s, i))
  }

  lemma {:induction false} DecodeAllAt(ps: seq<Piece>)
    ensures |DecodeAll(ps)| == |ps| && forall i :: 0 <= i < |ps| ==> DecodeAll(ps)[i] == Decode(ps[i])
  {
    hide Decode;
    if ps == [] {
    } else {
      DecodeAllAt(ps[1..]);
      assert DecodeAll(ps) == [Decode(ps[0])] + DecodeAll(ps[1..]);
      forall i | 0 < i < |ps| ensures DecodeAll(ps)[i] == Decode(ps[i]) {
        assert DecodeAll(ps)[i] == DecodeAll(ps[1..])[i - 1] && ps[i] == ps[1..][i - 1];
      }
    }
  }

  lemma QuotedDecodes(s: Text)
    ensures DecodeAll(Quoted(s)) == s
  {
    hide Decode, DecodeAll, QuotedUnit;
    DecodeAllAt(Quoted(s));
  }

  // Keys.

  predicate IsLeast(keys: set<Text>, k: Text) {
    k in keys && forall x :: x in keys ==> x == k || Before(k, x)
  }

  /** Some key comes before all the others. */
  lemma {:induction false} LeastExists(keys: set<Text>)
    requires keys != {}
    ensures exists k :: IsLeast(keys, k)
  {
    hide Before, IsLeast;
    var k :| k in keys;
    if keys - {k} == {} {
      OnlyIsLeast(keys, k);
    } else {
      LeastExists(keys - {k});
      var m :| IsLeast(keys - {k}, m);
      LeastOfMore(keys, k, m);
    }
  }

  lemma OnlyIsLeast(keys: set<Text>, k: Text)
    requires k in keys && keys - {k} == {}
    ensures IsLeast(keys, k)
  {
    forall x | x in keys ensures x == k {
      assert x !in keys - {k};
    }
  }

  lemma LeastOfMore(keys: set<Text>, k: Text, m: Text)
    requires k in keys && IsLeast(keys - {k}, m)
    ensures IsLeast(keys, k) || IsLeast(keys, m)
  {
    hide Before;
    BeforeTotal(k, m);
    if Before(k, m) {
      forall x | x in keys && x != k && x != m ensures Before(k, x) {
        assert x in keys - {k};
        BeforeTransitive(k, m, x);
      }
    } else {
      assert forall x :: x in keys ==> x == k || x in keys - {k};
    }
  }

  lemma LeastIsUnique(keys: set<Text>, k: Text, m: Text)
    requires IsLeast(keys, k) && IsLeast(keys, m)
    ensures k == m
  {
    hide Before;
    if k != m {
      BeforeTransitive(k, m, k);
      BeforeIrreflexive(k);
    }
  }

  predicate Ascending(keys: seq<Text>) {
    forall i, j :: 0 <= i < j < |keys| ==> Before(keys[i], keys[j])
  }

  function LeastKey(keys: set<Text>): (k: Text)
    requires keys != {}
    ensures IsLeast(keys, k)
  {
    LeastExists(keys);
    assert forall k, m | IsLeast(keys, k) && IsLeast(keys, m) :: k == m by {
      forall k, m | IsLeast(keys, k) && IsLeast(keys, m) ensures k == m {
        LeastIsUnique(keys, k, m);
      }
    }
    var k :| k in keys && IsLeast(keys, k);
    k
  }

  /** `Object.keys(value).sort()` */
  function SortedKeys(keys: set<Text>): (sorted: seq<Text>)
    ensures Ascending(sorted) && forall k :: k in sorted <==> k in keys
  {
    if keys == {} then []
    else
      var k := LeastKey(keys);
      [k] + SortedKeys(keys - {k})
  }

  // Values.

  /** Number.isFinite */
  predicate IsFinite(n: Numeric) {
    n.Finite? || n.MinusZero?
  }

  /** Every string and every key passes the check, and every number is finite. */
  predicate Canonicalizable(v: Json) {
    match v
    case Number(n) => IsFinite(n)
    case String(s) => Tolerated(s)
    case Array(items) => forall x :: x in items ==> Canonicalizable(x)
    case Object(members) => forall k :: k in members ==> Tolerated(k) && Canonicalizable(members[k])
    case _ => true
  }

  /** What JSON.stringify makes of a number: it knows no minus zero, and writes null for what is not finite. */
  function NumberTree(n: Numeric): Tree {
    match n
    case Finite(x) => Num(NumeralOf(x))
    case MinusZero => Num(NumeralOf(Doubles.ZERO))
    case _ => Word(Literal.Null)
  }

  function SettledNumber(n: Numeric): Json {
    match n
    case Finite(_) => Number(n)
    case MinusZero => Number(Finite(Doubles.ZERO))
    case _ => Json.Null
  }

  /** The value without what is lost in writing its numbers. */
  function Settled(v: Json): Json {
    match v
    case Number(n) => SettledNumber(n)
    case Array(items) => Array(seq(|items|, i requires 0 <= i < |items| => Settled(items[i])))
    case Object(members) => Object(map k | k in members :: Settled(members[k]))
    case _ => v
  }

  /** Every number is finite and none is minus zero. */
  predicate Lossless(v: Json) {
    match v
    case Number(n) => n.Finite?
    case Array(items) => forall x :: x in items ==> Lossless(x)
    case Object(members) => forall k :: k in members ==> Lossless(members[k])
    case _ => true
  }

  /** Nothing is lost exactly of the values without minus zeros and numbers that are not finite. */
  lemma {:induction false} SettledIsExact(v: Json)
    ensures Settled(v) == v <==> Lossless(v)
    decreases v
  {
    match v {
      case Array(items) =>
        forall i | 0 <= i < |items| ensures Settled(items[i]) == items[i] <==> Lossless(items[i]) {
          SettledIsExact(items[i]);
        }
        if Settled(v) == v {
          forall i | 0 <= i < |items| ensures Lossless(items[i]) {
            assert Settled(v).items[i] == items[i];
          }
        }
      case Object(members) =>
        forall k | k in members ensures Settled(members[k]) == members[k] <==> Lossless(members[k]) {
          SettledIsExact(members[k]);
        }
        if Settled(v) == v {
          forall k | k in members ensures Lossless(members[k]) {
            assert Settled(v).members[k] == members[k];
          }
        }
      case _ =>
    }
  }

  function Bare(t: Tree): Padded { Padded([], t, []) }

  /** The tree of the canonical text. */
  function CanonicalTree(v: Json): Tree
    decreases v, 1, 0
  {
    match v
    case Null => Word(Literal.Null)
    case Bool(b) => Word(if b then True else False)
    case Number(n) => NumberTree(n)
    case String(s) => Str(Quoted(s))
    case Array(items) =>
      if items == [] then EmptyArr([])
      else Arr(seq(|items|, i requires 0 <= i < |items| => Bare(CanonicalTree(items[i]))))
    case Object(members) =>
      if members == map[] then EmptyObj([]) else Obj(CanonicalEntries(v, SortedKeys(members.Keys)))
  }

  function CanonicalEntry(v: Json, k: Text): Entry
    requires v.Object? && k in v.members
    decreases v, 0, 0
  {
    Entry([], Quoted(k), [], Bare(CanonicalTree(v.members[k])))
  }

  function CanonicalEntries(v: Json, keys: seq<Text>): (entries: seq<Entry>)
    requires v.Object? && forall k :: k in keys ==> k in v.members
    ensures |entries| == |keys| && forall i :: 0 <= i < |keys| ==> entries[i] == CanonicalEntry(v, keys[i])
    decreases v, 0, 1, |keys|
  {
    if keys == [] then [] else [CanonicalEntry(v, keys[0])] + CanonicalEntries(v, keys[1..])
  }

  function CanonicalText(v: Json): Text {
    TreeText(CanonicalTree(v))
  }
}
