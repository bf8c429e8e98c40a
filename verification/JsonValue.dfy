/** The values JSON texts denote, the platform's JSON.parse, and parseStrictJson. */
module JsonValue {
  import opened Prelude
  import opened JsonGrammar
  import opened JsonNumber
  import opened JsonScan
  import JsonAccepting
  import JsonScanner

  /** Objects as maps: the order of the keys of a JavaScript object never reaches a canonical text. */
  datatype Json =
    | Null
    | Bool(b: bool)
    | Number(n: Numeric)
    | String(s: Text)
    | Array(items: seq<Json>)
    | Object(members: map<Text, Json>)

  function ValueOf(t: Tree): Json {
    match t
    case Word(True) => Bool(true)
    case Word(False) => Bool(false)
    case Word(Null) => Json.Null
    case Num(n) => Number(NumericOf(n))
    case Str(ps) => String(DecodeAll(ps))
    case EmptyArr(_) => Array([])
    case Arr(items) => Array(seq(|items|, i requires 0 <= i < |items| => ValueOf(items[i].tree)))
    case EmptyObj(_) => Object(map[])
    case Obj(members) => Object(MembersOf(members))
  }

  /** Of two members with the same name the later one wins. */
  function MembersOf(entries: seq<Entry>): map<Text, Json> {
    if entries == [] then map[]
    else map[KeyOf(entries[0]) := ValueOf(entries[0].value.tree)] + MembersOf(entries[1..])
  }

  /** JSON.parse: the grammar of RFC 8259, without any regard to repeated names. */
  function JsonParse(t: Text): Result<Json> {
    var p := ScanText(t, false);
    if p.Some? && PaddedOk(p.value, true) then Ok(ValueOf(p.value.tree)) else Rejected
  }

  lemma StrictIsLenientPadded(p: Padded)
    requires PaddedOk(p, true)
    ensures PaddedOk(p, false)
    decreases p
  {
    StrictIsLenient(p.tree);
  }

  lemma {:induction false} StrictIsLenient(t: Tree)
    requires TreeOk(t, true)
    ensures TreeOk(t, false)
    decreases t
  {
    match t
    case Arr(items) =>
      forall p | p in items ensures PaddedOk(p, false) { StrictIsLenientPadded(p); }
    case Obj(members) =>
      forall e | e in members ensures EntryOk(e, false) { StrictIsLenientPadded(e.value); }
    case _ =>
  }

  /** JSON.parse accepts exactly the texts of RFC 8259. */
  lemma JsonParseIsTheGrammar(t: Text, v: Json)
    ensures JsonParse(t) == Ok(v) <==>
      exists p: Padded :: t == PaddedText(p) && PaddedOk(p, true) && v == ValueOf(p.tree)
  {
    hide PaddedText, PaddedOk, ScanText, ValueOf;
    if JsonParse(t) == Ok(v) {
      var p := ScanText(t, false).value;
      JsonAccepting.ScanIsExact(t, p, false);
      assert t == PaddedText(p) && PaddedOk(p, true) && v == ValueOf(p.tree);
    }
    if p: Padded :| t == PaddedText(p) && PaddedOk(p, true) && v == ValueOf(p.tree) {
      StrictIsLenientPadded(p);
      JsonAccepting.ScanIsExact(t, p, false);
    }
  }

  /**
   * parseStrictJson accepts exactly the texts of RFC 8259 in which no object
   * repeats a decoded name, and gives the value the text denotes.
   */
  ghost predicate Denotes(t: Text, v: Json) {
    exists p: Padded :: t == PaddedText(p) && PaddedOk(p, true) && KeysDistinct(p.tree) && v == ValueOf(p.tree)
  }

  method ParseStrictJson(source: Text) returns (r: Result<Json>)
    ensures forall v :: r == Ok(v) <==> Denotes(source, v)
  {
    var scanner := new JsonScanner.DuplicateKeyScanner(source);
    var ok := scanner.Scan();
    if ok {
      r := JsonParse(source);
    } else {
      r := Rejected;
    }
    forall v ensures r == Ok(v) <==> Denotes(source, v) {
      ParsedIsDenoted(source, v, ok);
    }
  }

  lemma ParsedIsDenoted(t: Text, v: Json, unique: bool)
    requires unique <==> exists p: Padded :: t == PaddedText(p) && PaddedOk(p, false) && KeysDistinct(p.tree)
    ensures unique && JsonParse(t) == Ok(v) <==> Denotes(t, v)
  {
    hide PaddedText, PaddedOk, KeysDistinct, ValueOf, JsonParse;
    JsonParseIsTheGrammar(t, v);
    if unique && JsonParse(t) == Ok(v) {
      var p: Padded :| t == PaddedText(p) && PaddedOk(p, false) && KeysDistinct(p.tree);
      var q: Padded :| t == PaddedText(q) && PaddedOk(q, true) && v == ValueOf(q.tree);
      StrictIsLenientPadded(q);
      JsonAccepting.ReadingIsUnique(p, q);
      assert Denotes(t, v);
    }
    if Denotes(t, v) {
      var p: Padded :| t == PaddedText(p) && PaddedOk(p, true) && KeysDistinct(p.tree) && v == ValueOf(p.tree);
      StrictIsLenientPadded(p);
    }
  }

  /** A text denotes at most one value. */
  lemma DenotesOne(t: Text, v: Json, w: Json)
    requires Denotes(t, v) && Denotes(t, w)
    ensures v == w
  {
    hide PaddedText, PaddedOk, KeysDistinct, ValueOf;
    var p: Padded :| t == PaddedText(p) && PaddedOk(p, true) && KeysDistinct(p.tree) && v == ValueOf(p.tree);
    var q: Padded :| t == PaddedText(q) && PaddedOk(q, true) && KeysDistinct(q.tree) && w == ValueOf(q.tree);
    StrictIsLenientPadded(p);
    StrictIsLenientPadded(q);
    JsonAccepting.ReadingIsUnique(p, q);
  }
}
