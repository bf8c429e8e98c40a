/** The canonicalizer of packages/domain/src/canonical.ts, and what its texts mean. */
module Canonicalizer {
  import opened Prelude
  import opened CodeUnitOrder
  import opened JsonGrammar
  import opened JsonValue
  import opened JsonCanonical
  import opened JsonMinimal
  import Doubles
  import JsonNumber
  import JsonReading

  // The text is that of a strict tree without repeated keys, and the tree has the value.

  lemma {:induction false} CanonicalTreeOk(v: Json)
    ensures TreeOk(CanonicalTree(v), true) && KeysDistinct(CanonicalTree(v))
    decreases v
  {
    hide NumeralOk, NumberTree, PiecesOk, Quoted, QuotedUnit, SortedKeys, KeyOf, CanonicalEntry, PaddedOk, AllWhite;
    match v {
      case Number(n) => NumberBack(n);
      case Array(items) => ArrayOk(v);
      case Object(members) =>
        EntriesOk(v, SortedKeys(members.Keys));
        if members != map[] {
          SomeKey(members);
        } else {
          EmptyOk();
        }
      case String(s) => QuotedOk(s);
      case _ =>
    }
  }

  lemma {:induction false} ArrayOk(v: Json)
    requires v.Array?
    ensures TreeOk(CanonicalTree(v), true) && KeysDistinct(CanonicalTree(v))
    decreases v, 0
  {
    forall i | 0 <= i < |v.items| ensures var t := CanonicalTree(v.items[i]); TreeOk(t, true) && KeysDistinct(t) {
      CanonicalTreeOk(v.items[i]);
    }
  }

  lemma EmptyOk()
    ensures AllWhite([], true)
  {
  }

  lemma NumberBack(n: JsonNumber.Numeric)
    ensures TreeOk(NumberTree(n), true) && KeysDistinct(NumberTree(n))
    ensures ValueOf(NumberTree(n)) == SettledNumber(n) && Canonical(NumberTree(n))
  {
    hide JsonNumber.NumeralOf, JsonNumber.NumericOf, NumeralOk;
    match n {
      case Finite(x) => JsonNumber.NumeralBack(x);
      case MinusZero => JsonNumber.NumeralBack(Doubles.ZERO);
      case _ =>
    }
  }

  lemma QuotedOk(s: Text)
    ensures PiecesOk(Quoted(s))
  {
  }

  lemma SomeKey(members: map<Text, Json>)
    requires members != map[]
    ensures SortedKeys(members.Keys) != []
  {
    assert members.Keys != {};
  }

  lemma {:induction false} EntriesOk(v: Json, keys: seq<Text>)
    requires v.Object? && Ascending(keys) && forall k :: k in keys ==> k in v.members
    ensures
      var es := CanonicalEntries(v, keys);
      && (forall e :: e in es ==> EntryOk(e, true) && KeysDistinct(e.value.tree))
      && (forall i, j :: 0 <= i < j < |es| ==> KeyOf(es[i]) != KeyOf(es[j]))
    decreases v, 0
  {
    hide PiecesOk, Quoted, QuotedUnit, Before, DecodeAll, TreeOk, KeysDistinct;
    var es := CanonicalEntries(v, keys);
    forall i | 0 <= i < |es| ensures EntryOk(es[i], true) && KeysDistinct(es[i].value.tree) && KeyOf(es[i]) == keys[i] {
      CanonicalTreeOk(v.members[keys[i]]);
      QuotedOk(keys[i]);
      QuotedDecodes(keys[i]);
    }
    forall i, j | 0 <= i < j < |es| ensures KeyOf(es[i]) != KeyOf(es[j]) {
      BeforeIrreflexive(keys[i]);
    }
  }

  lemma {:induction false} CanonicalTreeBack(v: Json)
    ensures ValueOf(CanonicalTree(v)) == Settled(v)
    decreases v
  {
    hide NumberTree, SettledNumber, Quoted, QuotedUnit, DecodeAll;
    match v {
      case Number(n) => NumberBack(n);
      case String(s) => QuotedDecodes(s);
      case Array(_) => ArrayBack(v);
      case Object(_) => ObjectBack(v);
      case _ =>
    }
  }

  lemma {:induction false} ObjectBack(v: Json)
    requires v.Object?
    ensures ValueOf(CanonicalTree(v)) == Settled(v)
    decreases v, 1
  {
    hide SortedKeys, MembersOf, CanonicalEntries;
    var keys := SortedKeys(v.members.Keys);
    EntriesBack(v, keys);
    KeysOfAll(v.members);
    assert MembersOf(CanonicalEntries(v, keys)) == Settled(v).members;
  }

  lemma {:induction false} ArrayBack(v: Json)
    requires v.Array?
    ensures ValueOf(CanonicalTree(v)) == Settled(v)
    decreases v, 0
  {
    forall i | 0 <= i < |v.items| ensures ValueOf(CanonicalTree(v.items[i])) == Settled(v.items[i]) {
      CanonicalTreeBack(v.items[i]);
    }
  }

  lemma KeysOfAll(members: map<Text, Json>)
    ensures forall k :: k in SortedKeys(members.Keys) <==> k in members
  {
  }

  lemma {:induction false} EntriesBack(v: Json, keys: seq<Text>)
    requires v.Object? && forall k :: k in keys ==> k in v.members
    ensures
      var m := MembersOf(CanonicalEntries(v, keys));
      (forall k :: k in m <==> k in keys) && forall k :: k in m ==> m[k] == Settled(v.members[k])
    decreases v, 0, |keys|
  {
    hide Quoted, QuotedUnit, DecodeAll, ValueOf;
    if keys == [] {
    } else {
      EntriesBack(v, keys[1..]);
      CanonicalTreeBack(v.members[keys[0]]);
      QuotedDecodes(keys[0]);
      var es := CanonicalEntries(v, keys);
      assert es[1..] == CanonicalEntries(v, keys[1..]);
      assert KeyOf(es[0]) == keys[0];
      assert forall k :: k in keys <==> k == keys[0] || k in keys[1..];
    }
  }

  /** Strict parsing of a canonical text gives exactly the value, its minus zeros apart. */
  lemma CanonicalReadsBack(v: Json, w: Json)
    ensures Denotes(CanonicalText(v), w) <==> w == Settled(v)
  {
    hide TreeText, TreeOk, KeysDistinct, ValueOf, CanonicalTree, Settled;
    var p := Bare(CanonicalTree(v));
    CanonicalTreeOk(v);
    CanonicalTreeBack(v);
    assert CanonicalText(v) == PaddedText(p) && PaddedOk(p, true) && KeysDistinct(p.tree)
      && Settled(v) == ValueOf(p.tree);
    assert Denotes(CanonicalText(v), Settled(v));
    hide Denotes, CanonicalText;
    if Denotes(CanonicalText(v), w) {
      DenotesOne(CanonicalText(v), Settled(v), w);
    }
  }

  /** A minus zero, which the text `-0` denotes, is accepted and reads back as zero. */
  lemma MinusZeroIsLost()
    ensures var v := Number(JsonNumber.MinusZero);
      && Denotes([MINUS, 0x30], v) && Canonicalizable(v)
      && Denotes(CanonicalText(v), Number(JsonNumber.Finite(Doubles.ZERO)))
  {
    hide JsonNumber.NumericOf, JsonNumber.NumeralOf, NumeralOk;
    var v := Number(JsonNumber.MinusZero);
    JsonNumber.MinusZeroReads();
    var n := Numeral(true, [0x30], None, None);
    assert JsonNumber.Ascii("0") == [0x30];
    assert n == JsonNumber.Plain("0").(minus := true);
    var p := Bare(Num(n));
    assert PaddedText(p) == [MINUS, 0x30] && PaddedOk(p, true) && KeysDistinct(p.tree) && v == ValueOf(p.tree);
    CanonicalReadsBack(v, Number(JsonNumber.Finite(Doubles.ZERO)));
  }

  /**
   * Two values have the same canonical text exactly when they are equal, their minus zeros and the order
   * of their keys apart.
   */
  lemma CanonicalIsInjective(v: Json, w: Json)
    ensures CanonicalText(v) == CanonicalText(w) <==> Settled(v) == Settled(w)
  {
    hide Denotes, CanonicalText, Settled;
    CanonicalReadsBack(v, Settled(v));
    CanonicalReadsBack(w, Settled(v));
    if Settled(v) == Settled(w) {
      SameTree(v);
      SameTree(w);
    }
  }

  /** The numeral that the number it is read as is written as. */
  ghost predicate CanonicalNumeral(n: Numeral) {
    NumberTree(JsonNumber.NumericOf(n)) == Num(n)
  }

  /** A tree in canonical form: no white space, names in ascending order, plain integers, minimal escapes. */
  ghost predicate Canonical(t: Tree) {
    match t
    case Word(_) => true
    case Num(n) => CanonicalNumeral(n)
    case Str(ps) => Minimal(ps)
    case EmptyArr(inside) => inside == []
    case Arr(items) => items != [] && forall p :: p in items ==> p == Bare(p.tree) && Canonical(p.tree)
    case EmptyObj(inside) => inside == []
    case Obj(members) =>
      && members != []
      && (forall i, j :: 0 <= i < j < |members| ==> Before(KeyOf(members[i]), KeyOf(members[j])))
      && forall e :: e in members ==>
        e == Entry([], e.key, [], Bare(e.value.tree)) && Minimal(e.key) && Canonical(e.value.tree)
  }

  lemma {:induction false} AscendingUnique(a: seq<Text>, b: seq<Text>)
    requires Ascending(a) && Ascending(b) && forall k :: k in a <==> k in b
    ensures a == b
  {
    hide Before;
    if a == [] || b == [] {
      HasFirst(a);
      HasFirst(b);
    } else {
      HeadsAgree(a, b);
      forall k ensures k in a[1..] <==> k in b[1..] {
        TailHas(a, k);
        TailHas(b, k);
      }
      AscendingUnique(a[1..], b[1..]);
      assert a == [a[0]] + a[1..] && b == [b[0]] + b[1..];
    }
  }

  lemma HasFirst(a: seq<Text>)
    ensures a != [] ==> exists k :: k in a
  {
    assert a != [] ==> a[0] in a;
  }

  lemma HeadsAgree(a: seq<Text>, b: seq<Text>)
    requires a != [] && b != [] && Ascending(a) && Ascending(b) && forall k :: k in a <==> k in b
    ensures a[0] == b[0]
  {
    hide Before;
    assert a[0] in b && b[0] in a;
    if a[0] != b[0] {
      BeforeTransitive(a[0], b[0], a[0]);
      BeforeIrreflexive(a[0]);
    }
  }

  lemma TailHas(a: seq<Text>, k: Text)
    requires a != [] && Ascending(a)
    ensures k in a[1..] <==> k in a && k != a[0]
  {
    hide Before;
    BeforeIrreflexive(a[0]);
    if k in a[1..] {
      var i :| 0 <= i < |a[1..]| && a[1..][i] == k;
      assert a[i + 1] == k;
    }
  }

  function KeysOf(entries: seq<Entry>): (keys: seq<Text>)
    ensures |keys| == |entries| && forall i :: 0 <= i < |keys| ==> keys[i] == KeyOf(entries[i])
  {
    seq(|entries|, i requires 0 <= i < |entries| => KeyOf(entries[i]))
  }

  lemma {:induction false} MembersOfDistinct(entries: seq<Entry>)
    requires Ascending(KeysOf(entries))
    ensures var m := MembersOf(entries);
      && (forall k :: k in m <==> k in KeysOf(entries))
      && forall e :: e in entries ==> KeyOf(e) in m && m[KeyOf(e)] == ValueOf(e.value.tree)
  {
    hide Before, KeyOf, ValueOf;
    if entries == [] {
    } else {
      var tail := entries[1..];
      assert KeysOf(tail) == KeysOf(entries)[1..];
      MembersOfDistinct(tail);
      forall k ensures k in KeysOf(tail) <==> k in KeysOf(entries) && k != KeyOf(entries[0]) {
        TailHas(KeysOf(entries), k);
      }
    }
  }

  /** The tree of the canonical text is in canonical form... */
  lemma {:induction false} CanonicalTreeIsCanonical(v: Json)
    ensures Canonical(CanonicalTree(v))
    decreases v, 2
  {
    hide NumeralOk, NumberTree, PiecesOk, Quoted, QuotedUnit, SortedKeys, DecodeAll, Before;
    match v {
      case Number(n) => NumberBack(n);
      case String(s) =>
        QuotedDecodes(s);
        MinimalIsQuoted(Quoted(s));
      case Array(_) => ArrayIsCanonical(v);
      case Object(_) => ObjectIsCanonical(v);
      case _ =>
    }
  }

  lemma {:induction false} ArrayIsCanonical(v: Json)
    requires v.Array?
    ensures Canonical(CanonicalTree(v))
    decreases v, 0
  {
    forall i | 0 <= i < |v.items| ensures Canonical(CanonicalTree(v.items[i])) {
      CanonicalTreeIsCanonical(v.items[i]);
    }
  }

  lemma {:induction false} ObjectIsCanonical(v: Json)
    requires v.Object?
    ensures Canonical(CanonicalTree(v))
    decreases v, 1
  {
    hide Quoted, QuotedUnit, SortedKeys, KeyOf, Before, CanonicalEntry, EntryIsCanonical;
    if v.members == map[] {
    } else {
      SomeKey(v.members);
      var keys := SortedKeys(v.members.Keys);
      var es := CanonicalEntries(v, keys);
      forall i | 0 <= i < |es| ensures EntryIsCanonical(es[i]) && KeyOf(es[i]) == keys[i] {
        CanonicalEntryIsCanonical(v, keys[i]);
      }
      ObjectTree(v);
      EntriesAreCanonical(es, keys);
    }
  }

  lemma EntriesAreCanonical(entries: seq<Entry>, keys: seq<Text>)
    requires entries != [] && Ascending(keys) && |entries| == |keys|
    requires forall i :: 0 <= i < |keys| ==> EntryIsCanonical(entries[i]) && KeyOf(entries[i]) == keys[i]
    ensures Canonical(Obj(entries))
  {
    hide Quoted, KeyOf, Before;
    forall i, j | 0 <= i < j < |entries| ensures Before(KeyOf(entries[i]), KeyOf(entries[j])) {
      assert Before(keys[i], keys[j]);
    }
  }

  ghost predicate EntryIsCanonical(e: Entry) {
    e == Entry([], e.key, [], Bare(e.value.tree)) && Minimal(e.key) && Canonical(e.value.tree)
  }

  lemma {:induction false} CanonicalEntryIsCanonical(v: Json, k: Text)
    requires v.Object? && k in v.members
    ensures var e := CanonicalEntry(v, k); EntryIsCanonical(e) && KeyOf(e) == k
    decreases v, 0
  {
    hide Quoted, DecodeAll, CanonicalTree, Minimal;
    CanonicalTreeIsCanonical(v.members[k]);
    QuotedDecodes(k);
    MinimalIsQuoted(Quoted(k));
  }

  /** ... and is the only such tree of its value. */
  lemma {:induction false} CanonicalIsUnique(t: Tree)
    requires Canonical(t)
    ensures t == CanonicalTree(ValueOf(t))
    decreases t
  {
    hide NumberTree, JsonNumber.NumericOf, PiecesOk, Quoted, QuotedUnit, SortedKeys, DecodeAll, Before, MembersOf;
    match t {
      case Num(n) => NumeralIsUnique(n);
      case Str(ps) => MinimalIsQuoted(ps);
      case Arr(items) => ItemsAreUnique(items);
      case Obj(entries) => EntriesAreUnique(entries);
      case _ =>
    }
  }

  lemma NumeralIsUnique(n: Numeral)
    requires CanonicalNumeral(n)
    ensures Num(n) == NumberTree(JsonNumber.NumericOf(n))
  {
    hide NumberTree, JsonNumber.NumericOf;
  }

  lemma {:induction false} ItemsAreUnique(items: seq<Padded>)
    requires Canonical(Arr(items))
    ensures Arr(items) == CanonicalTree(ValueOf(Arr(items)))
    decreases items
  {
    var v := ValueOf(Arr(items));
    forall i | 0 <= i < |items| ensures items[i] == Bare(CanonicalTree(v.items[i])) {
      CanonicalIsUnique(items[i].tree);
    }
    hide Canonical, ValueOf;
    assert v.items != [];
    assert CanonicalTree(v).items == items;
  }

  lemma {:induction false} EntriesAreUnique(entries: seq<Entry>)
    requires Canonical(Obj(entries))
    ensures Obj(entries) == CanonicalTree(Object(MembersOf(entries)))
    decreases entries
  {
    hide Quoted, Before, MembersOf, ValueOf, KeyOf, Canonical, CanonicalTree, EntryIsCanonical, SortedKeys;
    var v := Object(MembersOf(entries));
    CanonicalObject(entries);
    MembersOfDistinct(entries);
    var keys := SortedKeys(v.members.Keys);
    AscendingUnique(keys, KeysOf(entries));
    var es := CanonicalEntries(v, keys);
    forall i | 0 <= i < |entries| ensures entries[i] == es[i] {
      EntryMeans(entries[i]);
      CanonicalIsUnique(entries[i].value.tree);
    }
    assert es == entries;
    assert KeyOf(entries[0]) in v.members;
    ObjectTree(v);
  }

  lemma CanonicalObject(entries: seq<Entry>)
    requires Canonical(Obj(entries))
    ensures entries != [] && Ascending(KeysOf(entries)) && forall e :: e in entries ==> EntryIsCanonical(e)
  {
    hide Before, KeyOf, Quoted;
  }

  lemma EntryMeans(e: Entry)
    requires EntryIsCanonical(e)
    ensures e == Entry([], Quoted(KeyOf(e)), [], Bare(e.value.tree)) && Canonical(e.value.tree)
  {
    hide Quoted, DecodeAll, Minimal, Canonical;
    MinimalIsQuoted(e.key);
  }

  lemma ObjectTree(v: Json)
    requires v.Object? && v.members != map[]
    ensures CanonicalTree(v) == Obj(CanonicalEntries(v, SortedKeys(v.members.Keys)))
  {
    hide CanonicalEntries, SortedKeys;
  }

  /** What is lost in writing leaves no trace. */
  lemma SameTree(v: Json)
    ensures CanonicalTree(v) == CanonicalTree(Settled(v)) && CanonicalText(v) == CanonicalText(Settled(v))
  {
    hide Canonical, ValueOf, CanonicalTree, Settled;
    CanonicalTreeIsCanonical(v);
    CanonicalTreeBack(v);
    CanonicalIsUnique(CanonicalTree(v));
  }

  /** A tree is in canonical form and has the value exactly when it is the tree of the value's canonical text. */
  lemma CanonicalFormIsExact(t: Tree, v: Json)
    ensures Canonical(t) && ValueOf(t) == Settled(v) <==> t == CanonicalTree(v)
  {
    hide Canonical, ValueOf, CanonicalTree, Settled;
    CanonicalTreeIsCanonical(v);
    CanonicalTreeBack(v);
    SameTree(v);
    if Canonical(t) && ValueOf(t) == Settled(v) {
      CanonicalIsUnique(t);
    }
  }

  // The methods.

  method AssertUnicodeScalarString(value: Text) returns (ok: bool)
    ensures ok <==> Tolerated(value)
  {
    var index := 0;
    while index < |value|
      invariant 0 <= index
      invariant index <= |value| ==> WellFormed(value[..index])
      invariant index > |value| ==> index == |value| + 1 && value != []
      invariant index > |value| ==> High(value[|value| - 1]) && WellFormed(value[..|value| - 1])
    {
      var unit := value[index];
      if 0xD800 <= unit <= 0xDBFF {
        if index + 1 < |value| && (value[index + 1] < 0xDC00 || value[index + 1] > 0xDFFF) {
          NotTolerated(value, index);
          return false;
        }
        PairKeeps(value, index);
        index := index + 2;
        continue;
      }
      if 0xDC00 <= unit <= 0xDFFF {
        NotTolerated(value, index);
        return false;
      }
      UnitKeeps(value, index);
      index := index + 1;
    }
    if index == |value| {
      assert value[..index] == value;
    }
    return true;
  }

  /**
   * A single high surrogate is let through, although it is no well-formed string; its canonical text
   * still reads back.
   */
  lemma LoneHighIsTolerated()
    ensures Tolerated([0xD800]) && !WellFormed([0xD800])
    ensures CanonicalText(String([0xD800])) == [QUOTE, BACKSLASH, LETTER_U, 0x64, 0x38, 0x30, 0x30, QUOTE]
  {
    var s: Text := [0xD800];
    assert Lone(s, 0);
    assert s[..0] == [];
    assert Quoted(s) == [Escaped(0xD800)];
    assert PiecesText(Quoted(s)) == PieceText(Escaped(0xD800)) + [];
  }

  lemma PairKeeps(s: Text, i: nat)
    requires i < |s| && WellFormed(s[..i]) && High(s[i]) && (i + 1 < |s| ==> Low(s[i + 1]))
    ensures if i + 1 < |s| then WellFormed(s[..i + 2]) else s[..|s| - 1] == s[..i]
  {
    if i + 1 < |s| {
      var u := s[..i + 2];
      forall j | 0 <= j < i + 2 ensures !Lone(u, j) {
        if j < i {
          assert !Lone(s[..i], j);
        }
      }
    }
  }

  lemma UnitKeeps(s: Text, i: nat)
    requires i < |s| && WellFormed(s[..i]) && !High(s[i]) && !Low(s[i])
    ensures WellFormed(s[..i + 1])
  {
    var u := s[..i + 1];
    forall j | 0 <= j < i + 1 ensures !Lone(u, j) {
      if j < i {
        assert !Lone(s[..i], j);
      }
    }
  }

  lemma NotTolerated(s: Text, i: nat)
    requires i < |s| && WellFormed(s[..i])
    requires Low(s[i]) || (High(s[i]) && i + 1 < |s| && !Low(s[i + 1]))
    ensures !Tolerated(s)
  {
    if Low(s[i]) && i > 0 {
      assert !Lone(s[..i], i - 1);
    }
    assert Lone(s, i);
    if |s| - 1 > i {
      assert Lone(s[..|s| - 1], i);
    }
  }

  /** `parts.join(",")` */
  function Join(parts: seq<Text>): Text {
    if parts == [] then [] else if |parts| == 1 then parts[0] else parts[0] + [COMMA] + Join(parts[1..])
  }

  lemma {:induction false} JoinedItems(items: seq<Padded>, parts: seq<Text>)
    requires |items| == |parts| && forall i :: 0 <= i < |items| ==> parts[i] == PaddedText(items[i])
    ensures ItemsText(items) == Join(parts)
  {
    hide PaddedText;
    if |items| <= 1 {
    } else {
      JoinedItems(items[1..], parts[1..]);
    }
  }

  lemma {:induction false} JoinedEntries(entries: seq<Entry>, parts: seq<Text>)
    requires |entries| == |parts| && forall i :: 0 <= i < |entries| ==> parts[i] == EntryText(entries[i])
    ensures EntriesText(entries) == Join(parts)
  {
    hide EntryText;
    if |entries| <= 1 {
    } else {
      JoinedEntries(entries[1..], parts[1..]);
    }
  }

  /** `JSON.stringify` of a string */
  function Stringify(s: Text): Text {
    StringText(Quoted(s))
  }

  lemma BareText(t: Tree)
    ensures PaddedText(Bare(t)) == TreeText(t)
  {
    hide TreeText;
  }

  lemma CanonicalEntryText(v: Json, k: Text)
    requires v.Object? && k in v.members
    ensures EntryText(CanonicalEntry(v, k)) == Stringify(k) + [COLON] + CanonicalText(v.members[k])
  {
    hide StringText, TreeText, Quoted, CanonicalTree, PaddedText;
    BareText(CanonicalTree(v.members[k]));
  }

  method SerializeCanonical(value: Json) returns (r: Result<Text>)
    ensures r == if Canonicalizable(value) then Ok(CanonicalText(value)) else Rejected
    decreases value
  {
    match value {
      case Null => return Ok(WordText(Literal.Null));
      case Bool(b) => return Ok(WordText(if b then True else False));
      case Number(n) =>
        if !IsFinite(n) {
          return Rejected;
        }
        return Ok(TreeText(NumberTree(n)));
      case String(s) =>
        var ok := AssertUnicodeScalarString(s);
        return if ok then Ok(Stringify(s)) else Rejected;
      case Array(items) =>
        r := SerializeArray(value);
      case Object(members) =>
        r := SerializeObject(value);
    }
  }

  method SerializeArray(value: Json) returns (r: Result<Text>)
    requires value.Array?
    ensures r == if Canonicalizable(value) then Ok(CanonicalText(value)) else Rejected
    decreases value, 0
  {
    hide TreeText;
    var items := value.items;
    var serialized: seq<Text> := [];
    var index := 0;
    while index < |items|
      invariant 0 <= index <= |items| == |items| && |serialized| == index
      invariant forall i :: 0 <= i < index ==> Canonicalizable(items[i]) && serialized[i] == CanonicalText(items[i])
    {
      var text := SerializeCanonical(items[index]);
      if text.Rejected? {
        return Rejected;
      }
      serialized := serialized + [text.value];
      index := index + 1;
    }
    ArrayText(value, serialized);
    return Ok([OPEN_BRACKET] + Join(serialized) + [CLOSE_BRACKET]);
  }

  lemma ArrayText(v: Json, parts: seq<Text>)
    requires v.Array? && |parts| == |v.items|
    requires forall i :: 0 <= i < |parts| ==> parts[i] == CanonicalText(v.items[i])
    ensures CanonicalText(v) == [OPEN_BRACKET] + Join(parts) + [CLOSE_BRACKET]
  {
    var t := CanonicalTree(v);
    if v.items != [] {
      forall i | 0 <= i < |parts| ensures parts[i] == PaddedText(t.items[i]) {
        BareText(CanonicalTree(v.items[i]));
      }
      JoinedItems(t.items, parts);
    }
  }

  method SerializeObject(value: Json) returns (r: Result<Text>)
    requires value.Object?
    ensures r == if Canonicalizable(value) then Ok(CanonicalText(value)) else Rejected
    decreases value, 0
  {
    hide CanonicalText, Stringify, Tolerated, SortedKeys, Join;
    var members := value.members;
    var keys := SortedKeys(members.Keys);
    var serialized: seq<Text> := [];
    var index := 0;
    while index < |keys|
      invariant 0 <= index <= |keys| && |serialized| == index
      invariant forall i :: 0 <= i < index ==>
        && Tolerated(keys[i]) && Canonicalizable(members[keys[i]])
        && serialized[i] == Stringify(keys[i]) + [COLON] + CanonicalText(members[keys[i]])
    {
      var key := keys[index];
      var ok := AssertUnicodeScalarString(key);
      if !ok {
        return Rejected;
      }
      var text := SerializeCanonical(members[key]);
      if text.Rejected? {
        return Rejected;
      }
      serialized := serialized + [Stringify(key) + [COLON] + text.value];
      index := index + 1;
    }
    ObjectText(value, serialized);
    return Ok([OPEN_BRACE] + Join(serialized) + [CLOSE_BRACE]);
  }

  lemma ObjectText(v: Json, parts: seq<Text>)
    requires v.Object? && |parts| == |SortedKeys(v.members.Keys)|
    requires
      var keys := SortedKeys(v.members.Keys);
      forall i :: 0 <= i < |parts| ==> parts[i] == Stringify(keys[i]) + [COLON] + CanonicalText(v.members[keys[i]])
    ensures CanonicalText(v) == [OPEN_BRACE] + Join(parts) + [CLOSE_BRACE]
  {
    hide EntriesText, EntryText, CanonicalEntry, Stringify, CanonicalText, SortedKeys, Join;
    var keys := SortedKeys(v.members.Keys);
    if v.members == map[] {
      NoKeys(v.members);
      assert CanonicalTree(v) == EmptyObj([]);
      EmptyText(v);
    } else {
      var es := CanonicalEntries(v, keys);
      SomeKey(v.members);
      forall i | 0 <= i < |parts| ensures parts[i] == EntryText(es[i]) {
        CanonicalEntryText(v, keys[i]);
      }
      JoinedEntries(es, parts);
      ObjText(v);
    }
  }

  lemma NoKeys(members: map<Text, Json>)
    requires members == map[]
    ensures SortedKeys(members.Keys) == []
  {
  }

  lemma EmptyText(v: Json)
    requires v == Object(map[])
    ensures CanonicalText(v) == [OPEN_BRACE] + Join([]) + [CLOSE_BRACE]
  {
  }

  lemma ObjText(v: Json)
    requires v.Object? && v.members != map[]
    ensures CanonicalText(v) == [OPEN_BRACE] + EntriesText(CanonicalEntries(v,
      SortedKeys(v.members.Keys))) + [CLOSE_BRACE]
  {
    hide EntriesText, CanonicalEntries, SortedKeys;
  }

  // What is refused.

  /** The value is in there, at any depth. */
  predicate Within(x: Json, v: Json)
    decreases v
  {
    || x == v
    || match v
       case Array(items) => exists i :: 0 <= i < |items| && Within(x, items[i])
       case Object(members) => exists k :: k in members && Within(x, members[k])
       case _ => false
  }

  /** A high surrogate has a low one after it or is the last unit, and a low one has a high one before it. */
  predicate PairedAt(s: Text, i: nat)
    requires i < |s|
  {
    && (0xD800 <= s[i] <= 0xDBFF ==> i == |s| - 1 || 0xDC00 <= s[i + 1] <= 0xDFFF)
    && (0xDC00 <= s[i] <= 0xDFFF ==> i > 0 && 0xD800 <= s[i - 1] <= 0xDBFF)
  }

  predicate Paired(s: Text) {
    forall i :: 0 <= i < |s| ==> PairedAt(s, i)
  }

  predicate Writable(x: Json) {
    && (x.Number? ==> x.n.Finite? || x.n.MinusZero?)
    && (x.String? ==> Paired(x.s))
    && (x.Object? ==> forall k :: k in x.members ==> Paired(k))
  }

  lemma PairedIsTolerated(s: Text)
    ensures Paired(s) <==> Tolerated(s)
  {
    if WellFormed(s) {
      forall i | 0 <= i < |s| ensures PairedAt(s, i) {
        assert !Lone(s, i);
      }
    } else if Tolerated(s) {
      forall i | 0 <= i < |s| ensures PairedAt(s, i) {
        if i < |s| - 1 {
          NotLoneInFront(s, i);
        }
      }
    }
    if Paired(s) {
      PairedIsEnough(s);
    }
  }

  lemma NotLoneInFront(s: Text, i: nat)
    requires i < |s| - 1 && WellFormed(s[..|s| - 1])
    ensures PairedAt(s, i)
  {
    var front := s[..|s| - 1];
    assert !Lone(front, i) && front[i] == s[i];
    assert i + 1 < |front| ==> front[i + 1] == s[i + 1];
    assert i > 0 ==> front[i - 1] == s[i - 1];
  }

  lemma PairedIsEnough(s: Text)
    requires Paired(s)
    ensures Tolerated(s)
  {
    if s != [] && High(s[|s| - 1]) {
      var front := s[..|s| - 1];
      forall i | 0 <= i < |front| ensures !Lone(front, i) {
        assert PairedAt(s, i) && front[i] == s[i];
        assert i + 1 < |front| ==> front[i + 1] == s[i + 1];
        assert i > 0 ==> front[i - 1] == s[i - 1];
      }
    } else {
      forall i | 0 <= i < |s| ensures !Lone(s, i) {
        assert PairedAt(s, i);
      }
    }
  }

  /**
   * Serialisation is refused exactly when somewhere in the value there is a number that
   * is not finite, or a string or a key with an unpaired surrogate that the check sees.
   */
  lemma {:induction false} RefusalIsExact(v: Json)
    ensures Canonicalizable(v) <==> forall x :: Within(x, v) ==> Writable(x)
    decreases v
  {
    match v {
      case Array(items) =>
        forall i | 0 <= i < |items| ensures Canonicalizable(items[i]) <==> AllWritable(items[i]) {
          RefusalIsExact(items[i]);
        }
        ArrayRefusal(v);
      case Object(members) =>
        forall k | k in members
          ensures Tolerated(k) <==> Paired(k)
          ensures Canonicalizable(members[k]) <==> AllWritable(members[k])
        {
          PairedIsTolerated(k);
          RefusalIsExact(members[k]);
        }
        ObjectRefusal(v);
      case String(s) =>
        PairedIsTolerated(s);
        assert Within(v, v);
      case _ =>
        assert Within(v, v);
    }
  }

  ghost predicate AllWritable(v: Json) {
    forall x :: Within(x, v) ==> Writable(x)
  }

  lemma ArrayRefusal(v: Json)
    requires v.Array?
    requires forall i :: 0 <= i < |v.items| ==> (Canonicalizable(v.items[i]) <==> AllWritable(v.items[i]))
    ensures Canonicalizable(v) <==> AllWritable(v)
  {
    hide Paired, Tolerated;
    var items := v.items;
    assert Canonicalizable(v) <==> forall i :: 0 <= i < |items| ==> Canonicalizable(items[i]);
    if Canonicalizable(v) {
      forall x | Within(x, v) ensures Writable(x) {
        if x != v {
          var i :| 0 <= i < |items| && Within(x, items[i]);
          assert AllWritable(items[i]);
        }
      }
    }
    if AllWritable(v) {
      forall i | 0 <= i < |items| ensures AllWritable(items[i]) {
        forall x | Within(x, items[i]) ensures Writable(x) {
          assert Within(x, v);
        }
      }
    }
  }

  lemma ObjectRefusal(v: Json)
    requires v.Object?
    requires forall k :: k in v.members ==> (Tolerated(k) <==> Paired(k))
    requires forall k :: k in v.members ==> (Canonicalizable(v.members[k]) <==> AllWritable(v.members[k]))
    ensures Canonicalizable(v) <==> AllWritable(v)
  {
    hide Paired, Tolerated;
    var members := v.members;
    assert Within(v, v);
    if Canonicalizable(v) {
      forall x | Within(x, v) ensures Writable(x) {
        if x != v {
          var k :| k in members && Within(x, members[k]);
          assert AllWritable(members[k]);
        }
      }
    }
    if AllWritable(v) {
      assert Writable(v);
      forall k | k in members ensures Tolerated(k) && AllWritable(members[k]) {
        forall x | Within(x, members[k]) ensures Writable(x) {
          assert Within(x, v);
        }
      }
    }
  }

  // A document, unit by unit.

  lemma OneIsWritten(one: Doubles.Double)
    requires one == 1.0
    ensures CanonicalText(Number(JsonNumber.Finite(one))) == [0x31]
  {
    JsonNumber.SafeIntegerIsPlain(1, one);
    assert JsonNumber.Ascii("1") == [0x31] by {
      assert JsonNumber.Ascii("1")[0] as int == "1"[0] as int;
    }
    hide JsonNumber.NumeralOf, JsonNumber.Ascii;
    assert NumberTree(JsonNumber.Finite(one)) == Num(Numeral(false, [0x31], None, None));
  }

  /** The canonical text of one document with every kind of value: `{"a":"x\n","b":[1,null,true,false]}`. */
  lemma ExampleDocument(one: Doubles.Double)
    requires one == 1.0
    ensures
      var value := Object(map[
        [0x62] := Array([Number(JsonNumber.Finite(one)), Json.Null, Bool(true), Bool(false)]),
        [0x61] := String([0x78, 0x0A])]);
      CanonicalText(value) ==
        [0x7B, 0x22, 0x61, 0x22, 0x3A, 0x22, 0x78, 0x5C, 0x6E, 0x22, 0x2C]
        + [0x22, 0x62, 0x22, 0x3A, 0x5B, 0x31, 0x2C, 0x6E, 0x75, 0x6C, 0x6C, 0x2C]
        + [0x74, 0x72, 0x75, 0x65, 0x2C, 0x66, 0x61, 0x6C, 0x73, 0x65, 0x5D, 0x7D]
  {
    hide CanonicalText, Stringify, SortedKeys;
    var list := Array([Number(JsonNumber.Finite(one)), Json.Null, Bool(true), Bool(false)]);
    var line := String([0x78, 0x0A]);
    ExampleList(one);
    ExampleLine();
    KeyText(0x61);
    KeyText(0x62);
    TwoMembers(line, list);
  }

  lemma TwoMembers(first: Json, second: Json)
    ensures CanonicalText(Object(map[[0x62] := second, [0x61] := first])) ==
      [0x7B] + (Stringify([0x61]) + [0x3A] + CanonicalText(first)) + [0x2C]
      + (Stringify([0x62]) + [0x3A] + CanonicalText(second)) + [0x7D]
  {
    hide CanonicalText, Stringify, SortedKeys;
    var members: map<Text, Json> := map[[0x62] := second, [0x61] := first];
    TwoKeys(members.Keys);
    var keys := SortedKeys(members.Keys);
    assert keys == [[0x61], [0x62]];
    var p, q := Stringify([0x61]) + [0x3A] + CanonicalText(first), Stringify([0x62]) + [0x3A] + CanonicalText(second);
    ObjectText(Object(members), [p, q]);
    assert [p, q][1..] == [q];
  }

  lemma KeyText(u: Unit)
    requires 0x61 <= u <= 0x7A
    ensures Stringify([u]) == [0x22, u, 0x22]
  {
    PlainTextIsVerbatim([u]);
  }

  lemma TwoKeys(keys: set<Text>)
    requires keys == {[0x61], [0x62]}
    ensures SortedKeys(keys) == [[0x61], [0x62]]
  {
    var sorted: seq<Text> := [[0x61], [0x62]];
    assert Before(sorted[0], sorted[1]);
    AscendingUnique(SortedKeys(keys), sorted);
  }

  lemma ExampleLine()
    ensures CanonicalText(String([0x78, 0x0A])) == [0x22, 0x78, 0x5C, 0x6E, 0x22]
  {
    var s: Text := [0x78, 0x0A];
    QuotedUnitSpells(s, 0, Raw(0x78));
    QuotedUnitSpells(s, 1, Short(0x6E));
    assert Quoted(s) == [Raw(0x78), Short(0x6E)];
    OnePiece(Short(0x6E));
    assert Quoted(s)[1..] == [Short(0x6E)];
  }

  lemma ExampleList(one: Doubles.Double)
    requires one == 1.0
    ensures CanonicalText(Array([Number(JsonNumber.Finite(one)), Json.Null, Bool(true), Bool(false)])) ==
      [0x5B, 0x31, 0x2C, 0x6E, 0x75, 0x6C, 0x6C, 0x2C]
      + [0x74, 0x72, 0x75, 0x65, 0x2C, 0x66, 0x61, 0x6C, 0x73, 0x65, 0x5D]
  {
    hide *;
    OneIsWritten(one);
    ExampleWords();
    FourItems(Number(JsonNumber.Finite(one)), Json.Null, Bool(true), Bool(false));
  }

  lemma FourItems(a: Json, b: Json, c: Json, d: Json)
    ensures CanonicalText(Array([a, b, c, d])) ==
      [0x5B] + (CanonicalText(a) + [0x2C]
      + (CanonicalText(b) + [0x2C] + (CanonicalText(c) + [0x2C] + CanonicalText(d)))) + [0x5D]
  {
    hide CanonicalText;
    var parts := [CanonicalText(a), CanonicalText(b), CanonicalText(c), CanonicalText(d)];
    ArrayText(Array([a, b, c, d]), parts);
    FourParts(parts);
  }

  lemma ExampleWords()
    ensures CanonicalText(Json.Null) == [0x6E, 0x75, 0x6C, 0x6C]
    ensures CanonicalText(Bool(true)) == [0x74, 0x72, 0x75, 0x65]
    ensures CanonicalText(Bool(false)) == [0x66, 0x61, 0x6C, 0x73, 0x65]
  {
    hide JsonNumber.NumeralOf, Quoted, SortedKeys;
  }

  lemma FourParts(parts: seq<Text>)
    requires |parts| == 4
    ensures Join(parts) == parts[0] + [COMMA] + (parts[1] + [COMMA] + (parts[2] + [COMMA] + parts[3]))
  {
    assert parts[1..][1..] == parts[2..] && parts[2..][1..] == parts[3..] && parts[3..] == [parts[3]];
    assert Join(parts[2..]) == parts[2] + [COMMA] + parts[3];
  }
}
