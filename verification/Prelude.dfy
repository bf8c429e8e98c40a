/** Small vocabulary shared by every module of the model. */
module Prelude {
  datatype Option<+T> = None | Some(value: T) {
    function GetOr(default: T): T {
      if Some? then value else default
    }
  }

  /** The value a call resolves with, or `Rejected` when it throws. */
  datatype Result<+T> = Ok(value: T) | Rejected

  /** The source's `a ?? b` on two optional fields. */
  function Coalesce<T>(a: Option<T>, b: Option<T>): Option<T> {
    if a.Some? then a else b
  }

  /** `map.get(key)` */
  function Find<K, V>(m: map<K, V>, key: K): Option<V> {
    if key in m then Some(m[key]) else None
  }

  /** The source's truthiness test on an optional string: absent and "" are both false. */
  predicate Truthy(s: Option<string>) {
    s.Some? && s.value != ""
  }
}

/** The order of JavaScript's default `sort`: by code unit, a proper prefix first. */
module CodeUnitOrder {
  predicate Before(a: seq<int>, b: seq<int>) {
    if b == [] then false
    else if a == [] then true
    else a[0] < b[0] || (a[0] == b[0] && Before(a[1..], b[1..]))
  }

  /** The two first differ at `k`, where `a` has the smaller unit or has ended. */
  predicate FirstDiffer(a: seq<int>, b: seq<int>, k: nat) {
    && k <= |a| && k < |b| && (forall i :: 0 <= i < k ==> a[i] == b[i])
    && (k < |a| ==> a[k] < b[k])
  }

  lemma {:induction false} BeforeIsByFirstDifference(a: seq<int>, b: seq<int>)
    ensures Before(a, b) <==> exists k :: FirstDiffer(a, b, k)
  {
    if a == [] || b == [] || a[0] != b[0] {
      if Before(a, b) {
        assert FirstDiffer(a, b, 0);
      }
      if k :| FirstDiffer(a, b, k) {
        assert k == 0;
      }
    } else {
      BeforeIsByFirstDifference(a[1..], b[1..]);
      if k :| FirstDiffer(a[1..], b[1..], k) {
        DifferLater(a, b, k);
      }
      if k :| FirstDiffer(a, b, k) {
        assert k > 0;
        DifferSooner(a, b, k);
      }
    }
  }

  lemma DifferLater(a: seq<int>, b: seq<int>, k: nat)
    requires a != [] && b != [] && a[0] == b[0] && FirstDiffer(a[1..], b[1..], k)
    ensures FirstDiffer(a, b, k + 1)
  {
    forall i | 0 <= i < k + 1 ensures a[i] == b[i] {
      assert i > 0 ==> a[i] == a[1..][i - 1] && b[i] == b[1..][i - 1];
    }
  }

  lemma DifferSooner(a: seq<int>, b: seq<int>, k: nat)
    requires a != [] && b != [] && k > 0 && FirstDiffer(a, b, k)
    ensures FirstDiffer(a[1..], b[1..], k - 1)
  {
    forall i | 0 <= i < k - 1 ensures a[1..][i] == b[1..][i] {
      assert a[i + 1] == b[i + 1];
    }
  }

  lemma {:induction false} BeforeTotal(a: seq<int>, b: seq<int>)
    ensures a == b || Before(a, b) || Before(b, a)
  {
    if a == [] || b == [] || a[0] != b[0] {
    } else {
      BeforeTotal(a[1..], b[1..]);
      assert a == [a[0]] + a[1..] && b == [b[0]] + b[1..];
    }
  }

  lemma {:induction false} BeforeTransitive(a: seq<int>, b: seq<int>, c: seq<int>)
    requires Before(a, b) && Before(b, c)
    ensures Before(a, c)
  {
    if a != [] && a[0] == b[0] == c[0] {
      BeforeTransitive(a[1..], b[1..], c[1..]);
    }
  }

  lemma {:induction false} BeforeIrreflexive(a: seq<int>)
    ensures !Before(a, a)
  {
    if a == [] {
    } else {
      BeforeIrreflexive(a[1..]);
    }
  }

  function Units(s: string): seq<int> {
    seq(|s|, i requires 0 <= i < |s| => s[i] as int)
  }

  lemma UnitsInjective(s: string, t: string)
    requires Units(s) == Units(t)
    ensures s == t
  {
    assert |s| == |Units(s)| == |Units(t)| == |t|;
    forall i | 0 <= i < |s| ensures s[i] == t[i] {
      assert Units(s)[i] == Units(t)[i];
    }
  }

  /** `[...ids].sort()[0]` */
  function Least(ids: seq<string>): (least: string)
    requires ids != []
    ensures least in ids
    ensures forall x :: x in ids ==> x == least || Before(Units(least), Units(x))
  {
    if |ids| == 1 then ids[0]
    else
      var rest := Least(ids[1..]);
      if Before(Units(ids[0]), Units(rest)) then
        assert forall x :: x in ids[1..] && x != rest ==> Before(Units(ids[0]), Units(x)) by {
          forall x | x in ids[1..] && x != rest ensures Before(Units(ids[0]), Units(x)) {
            BeforeTransitive(Units(ids[0]), Units(rest), Units(x));
          }
        }
        ids[0]
      else
        assert ids[0] == rest || Before(Units(rest), Units(ids[0])) by {
          BeforeTotal(Units(ids[0]), Units(rest));
          if Units(ids[0]) == Units(rest) { UnitsInjective(ids[0], rest); }
        }
        rest
  }
}

/** The identifier and digest patterns of packages/domain/src/schemas.ts. */
module Schemas {
  predicate IsDigit(c: char) { '0' <= c <= '9' }

  predicate IsAlphanumeric(c: char) {
    IsDigit(c) || 'A' <= c <= 'Z' || 'a' <= c <= 'z'
  }

  predicate IsIdentifier(s: string) {
    && 1 <= |s| <= 128
    && IsAlphanumeric(s[0])
    && forall i :: 1 <= i < |s| ==> IsAlphanumeric(s[i]) || s[i] in "._:-"
  }

  predicate IsSha256(s: string) {
    && |s| == 71
    && s[..7] == "sha256:"
    && forall i :: 7 <= i < 71 ==> IsDigit(s[i]) || 'a' <= s[i] <= 'f'
  }

  /** Unit by unit: what an identifier may begin with, what it may go on with, and how long it may get. */
  lemma IdentifierGrows(s: string, c: char)
    ensures !IsIdentifier("")
    ensures IsIdentifier([c]) <==> '0' <= c <= '9' || 'A' <= c <= 'Z' || 'a' <= c <= 'z'
    ensures s != "" ==> (IsIdentifier(s + [c]) <==>
      && IsIdentifier(s) && |s| < 128
      && ('0' <= c <= '9' || 'A' <= c <= 'Z' || 'a' <= c <= 'z' || c == '.' || c == '_' || c == ':' || c == '-'))
  {
    if s != "" {
      var t := s + [c];
      assert t[|s|] == c && forall i :: 0 <= i < |s| ==> t[i] == s[i];
    }
  }

  /** A digest is the seven characters of its prefix and sixty-four lower-case hexadecimal digits. */
  lemma DigestIsPrefixed(s: string, hex: string)
    ensures IsSha256(s) ==> exists rest :: s == "sha256:" + rest
    ensures IsSha256("sha256:" + hex) <==>
      |hex| == 64 && forall i :: 0 <= i < 64 ==> '0' <= hex[i] <= '9' || 'a' <= hex[i] <= 'f'
  {
    if IsSha256(s) {
      assert s == "sha256:" + s[7..];
    }
    var t := "sha256:" + hex;
    assert t[..7] == "sha256:" && forall i :: 7 <= i < |t| ==> t[i] == hex[i - 7];
    assert forall i :: 0 <= i < |hex| ==> hex[i] == t[i + 7];
  }
}
