/**
 * The verdict said over the two lists of balances themselves, entry by entry:
 * which entries it looks at, what it refuses, and what it accepts.
 */
module SettlementLaws {
  import opened Prelude
  import opened Settlement
  import opened SettlementConservation

  const USDC := "4zMMC9srt5Ri5X14GAgXhaHii3GnPAEERYPJgZJDncDU"

  /** No account index occurs twice. */
  predicate Distinct(balances: seq<Balance>) {
    forall j, k :: 0 <= j < k < |balances| ==> balances[j].index != balances[k].index
  }

  /** The sum of what an owner's entries hold. */
  function OwnedBy(balances: seq<Balance>, owner: string): int {
    if balances == [] then 0
    else
      var b := balances[|balances| - 1];
      OwnedBy(balances[..|balances| - 1], owner) + (if b.owner == Some(owner) then b.amount else 0)
  }

  /** What the entry of an index holds, or nothing when there is none. */
  function AmountAt(balances: seq<Balance>, i: nat): int {
    if balances == [] then 0
    else
      var b := balances[|balances| - 1];
      AmountAt(balances[..|balances| - 1], i) + (if b.index == i then b.amount else 0)
  }

  // Entries and the index.

  lemma {:induction false} EntryAt(balances: seq<Balance>, b: Balance)
    requires Distinct(balances) && b in balances
    ensures b.index in Indexed(balances) && Indexed(balances)[b.index] == b
  {
    var front, last := Front(balances), Last(balances);
    assert balances == front + [last];
    if b != last {
      EntryAt(front, b);
      assert b in front;
      var k :| 0 <= k < |front| && front[k] == b;
      assert balances[k].index != balances[|balances| - 1].index;
    }
  }

  lemma {:induction false} IndexedIsEntry(balances: seq<Balance>, i: nat)
    requires i in Indexed(balances)
    ensures Indexed(balances)[i] in balances && Indexed(balances)[i].index == i
  {
    var front, last := Front(balances), Last(balances);
    assert balances == front + [last];
    if i != last.index {
      IndexedIsEntry(front, i);
    }
  }

  lemma {:induction false} AmountAtIs(balances: seq<Balance>, i: nat)
    requires Distinct(balances)
    ensures AmountAt(balances, i) == AmountIn(Indexed(balances), i)
  {
    if balances == [] {
    } else {
      var front, last := Front(balances), Last(balances);
      AmountAtIs(front, i);
      if i == last.index {
        FrontMisses(balances);
      }
    }
  }

  // What is refused.

  /** A list that names an account twice is refused. */
  lemma RepeatsAreRefused(pre: seq<Balance>, post: seq<Balance>, keys: nat, payer: string, payee: string, amount: int)
    requires !Distinct(pre) || !Distinct(post)
    ensures Verdict(pre, post, keys, payer, payee, amount) == Rejected
  {
  }

  lemma ObjectionRefuses(pre: seq<Balance>, post: seq<Balance>, keys: nat, payer: string, payee: string, amount: int,
      i: nat)
    requires Distinct(pre) && Distinct(post) && i in Indexed(pre).Keys + Indexed(post).Keys
    requires !AccountFine(Indexed(pre), Indexed(post), keys, i)
    ensures Verdict(pre, post, keys, payer, payee, amount) == Rejected
  {
    hide AccountFine, Indexed, AllIndexes, DeltasOf;
    AllIndexesMeans(pre, post);
  }

  /** An account whose mint changed is refused, whatever the mints. */
  lemma ChangedMintIsRefused(pre: seq<Balance>, post: seq<Balance>, keys: nat, payer: string, payee: string,
      amount: int, a: Balance, b: Balance)
    requires Distinct(pre) && Distinct(post) && a in pre && b in post && a.index == b.index && a.mint != b.mint
    ensures Verdict(pre, post, keys, payer, payee, amount) == Rejected
  {
    hide Indexed, Distinct, Verdict;
    EntryAt(pre, a);
    EntryAt(post, b);
    ObjectionRefuses(pre, post, keys, payer, payee, amount, a.index);
  }

  /** A USDC entry with other decimals than six is refused. */
  lemma WrongDecimalsAreRefused(pre: seq<Balance>, post: seq<Balance>, keys: nat, payer: string, payee: string,
      amount: int, b: Balance)
    requires Distinct(pre) && Distinct(post) && (b in pre || b in post) && b.mint == USDC && b.decimals != 6
    ensures Verdict(pre, post, keys, payer, payee, amount) == Rejected
  {
    hide Indexed, Distinct, Verdict;
    if b in pre {
      EntryAt(pre, b);
    } else {
      EntryAt(post, b);
    }
    ObjectionRefuses(pre, post, keys, payer, payee, amount, b.index);
  }

  /** A USDC account with one owner before and another after is refused. */
  lemma TwoOwnersAreRefused(pre: seq<Balance>, post: seq<Balance>, keys: nat, payer: string, payee: string,
      amount: int, a: Balance, b: Balance)
    requires Distinct(pre) && Distinct(post) && a in pre && b in post && a.index == b.index && a.mint == USDC
    requires a.owner.Some? && a.owner.value != "" && b.owner.Some? && b.owner.value != "" && a.owner != b.owner
    ensures Verdict(pre, post, keys, payer, payee, amount) == Rejected
  {
    hide Indexed, Distinct, Verdict;
    EntryAt(pre, a);
    EntryAt(post, b);
    ObjectionRefuses(pre, post, keys, payer, payee, amount, a.index);
  }

  /** A USDC entry without an owner, in a place where the other list has none either, is refused. */
  lemma MissingOwnerIsRefused(pre: seq<Balance>, post: seq<Balance>, keys: nat, payer: string, payee: string,
      amount: int, i: nat)
    requires Distinct(pre) && Distinct(post)
    requires exists b :: b in pre + post && b.index == i && b.mint == USDC
    requires forall b :: b in pre + post && b.index == i ==> b.owner.None? || b.owner.value == ""
    ensures Verdict(pre, post, keys, payer, payee, amount) == Rejected
  {
    hide Distinct, Verdict, Indexed;
    var b :| b in pre + post && b.index == i && b.mint == USDC;
    var before, after := Indexed(pre), Indexed(post);
    if b in pre {
      EntryAt(pre, b);
    } else {
      EntryAt(post, b);
    }
    if i in before {
      IndexedIsEntry(pre, i);
      assert before[i] in pre + post;
    }
    if i in after {
      IndexedIsEntry(post, i);
      assert after[i] in pre + post;
    }
    assert !Truthy(OwnerOf(before, after, i));
    if IsUsdc(before, after, i) {
      ObjectionRefuses(pre, post, keys, payer, payee, amount, i);
    } else {
      ObjectionRefuses(pre, post, keys, payer, payee, amount, i);
    }
  }

  /** A USDC account that changed and that the transaction does not list is refused. */
  lemma UnlistedAccountIsRefused(pre: seq<Balance>, post: seq<Balance>, keys: nat, payer: string, payee: string,
      amount: int, b: Balance)
    requires Distinct(pre) && Distinct(post) && b in pre + post && b.mint == USDC
    requires b.index >= keys && AmountAt(pre, b.index) != AmountAt(post, b.index)
    ensures Verdict(pre, post, keys, payer, payee, amount) == Rejected
  {
    hide Distinct, Verdict, Indexed;
    if b in pre {
      EntryAt(pre, b);
    } else {
      EntryAt(post, b);
    }
    AmountAtIs(pre, b.index);
    AmountAtIs(post, b.index);
    ObjectionRefuses(pre, post, keys, payer, payee, amount, b.index);
  }

  // What is accepted, when all entries are USDC.

  predicate IsPlain(b: Balance, keys: nat) {
    b.mint == USDC && b.decimals == 6 && b.index < keys && b.owner.Some? && b.owner.value != ""
  }

  /** USDC entries only, each with its owner, and an account has the same owner before and after. */
  predicate PlainUsdc(pre: seq<Balance>, post: seq<Balance>, keys: nat) {
    && Distinct(pre) && Distinct(post)
    && (forall b :: b in pre + post ==> IsPlain(b, keys))
    && (forall a, b :: a in pre && b in post && a.index == b.index ==> a.owner == b.owner)
  }

  /**
   * Of such lists the verifier accepts exactly those in which the payer's entries
   * fell by the amount, the payee's rose by it and every other account held still.
   */
  lemma PlainTransferIsExact(pre: seq<Balance>, post: seq<Balance>, keys: nat, payer: string, payee: string,
      amount: int)
    requires PlainUsdc(pre, post, keys)
    ensures Verdict(pre, post, keys, payer, payee, amount).Ok? <==>
      && amount > 0 && payer != payee
      && OwnedBy(post, payer) == OwnedBy(pre, payer) - amount
      && OwnedBy(post, payee) == OwnedBy(pre, payee) + amount
      && forall b :: b in pre + post && b.owner.value !in {payer, payee} ==>
        AmountAt(post, b.index) == AmountAt(pre, b.index)
  {
    hide Verdict, AccountFine, Indexed, Accounts, Held, OwnedBy, OthersUntouched, AmountAt, DistinctIndexes, IsUsdc;
    VerdictIsExact(pre, post, keys, payer, payee, amount);
    PlainIsFine(pre, post, keys);
    PlainHeld(pre, post, keys, payer);
    PlainHeld(pre, post, keys, payee);
    PlainOthers(pre, post, keys, payer, payee);
    PlainDistinct(pre, post, keys);
  }

  lemma PlainDistinct(pre: seq<Balance>, post: seq<Balance>, keys: nat)
    requires PlainUsdc(pre, post, keys)
    ensures DistinctIndexes(pre) && DistinctIndexes(post)
  {
  }

  /** What the index maps of such lists say of one account. */
  lemma PlainAt(pre: seq<Balance>, post: seq<Balance>, keys: nat, i: nat)
    requires PlainUsdc(pre, post, keys)
    ensures
      var before, after := Indexed(pre), Indexed(post);
      && (i in before ==> before[i] in pre + post && before[i].index == i && IsPlain(before[i], keys))
      && (i in after ==> after[i] in pre + post && after[i].index == i && IsPlain(after[i], keys))
      && (i in before && i in after ==> before[i].owner == after[i].owner)
  {
    hide Distinct, Indexed;
    var before, after := Indexed(pre), Indexed(post);
    if i in before {
      IndexedIsEntry(pre, i);
      assert before[i] in pre + post;
    }
    if i in after {
      IndexedIsEntry(post, i);
      assert after[i] in pre + post;
    }
  }

  lemma PlainIsFine(pre: seq<Balance>, post: seq<Balance>, keys: nat)
    requires PlainUsdc(pre, post, keys)
    ensures forall i :: i in Indexed(pre).Keys + Indexed(post).Keys ==>
      && AccountFine(Indexed(pre), Indexed(post), keys, i)
      && IsUsdc(Indexed(pre), Indexed(post), i)
  {
    hide PlainUsdc, Indexed;
    forall i | i in Indexed(pre).Keys + Indexed(post).Keys
      ensures AccountFine(Indexed(pre), Indexed(post), keys, i) && IsUsdc(Indexed(pre), Indexed(post), i)
    {
      PlainAt(pre, post, keys, i);
    }
  }

  lemma {:induction false} HeldIsOwned(balances: seq<Balance>, accounts: set<nat>, owner: string)
    requires forall b :: b in balances ==> (b.index in accounts <==> b.owner == Some(owner))
    ensures Held(balances, accounts) == OwnedBy(balances, owner)
  {
    if balances == [] {
    } else {
      assert balances == Front(balances) + [Last(balances)];
      HeldIsOwned(Front(balances), accounts, owner);
    }
  }

  lemma PlainHeld(pre: seq<Balance>, post: seq<Balance>, keys: nat, owner: string)
    requires PlainUsdc(pre, post, keys)
    ensures
      var accounts := Accounts(Indexed(pre), Indexed(post), Some(owner));
      Held(pre, accounts) == OwnedBy(pre, owner) && Held(post, accounts) == OwnedBy(post, owner)
  {
    var before, after := Indexed(pre), Indexed(post);
    var accounts := Accounts(before, after, Some(owner));
    PlainIsFine(pre, post, keys);
    PlainDistinct(pre, post, keys);
    hide Indexed, AccountFine, PlainUsdc, IsUsdc;
    forall b | b in pre + post ensures b.index in accounts <==> b.owner == Some(owner) {
      PlainAt(pre, post, keys, b.index);
      if b in pre {
        EntryAt(pre, b);
      } else {
        EntryAt(post, b);
      }
    }
    HeldIsOwned(pre, accounts, owner);
    HeldIsOwned(post, accounts, owner);
  }

  lemma PlainOthers(pre: seq<Balance>, post: seq<Balance>, keys: nat, payer: string, payee: string)
    requires PlainUsdc(pre, post, keys)
    ensures OthersUntouched(Indexed(pre), Indexed(post), payer, payee) <==>
      forall b :: b in pre + post && b.owner.value !in {payer, payee} ==>
        AmountAt(post, b.index) == AmountAt(pre, b.index)
  {
    var before, after := Indexed(pre), Indexed(post);
    PlainIsFine(pre, post, keys);
    hide Indexed, AccountFine, IsUsdc, PlainUsdc;
    forall b | b in pre + post
      ensures b.owner.Some? && b.index in Accounts(before, after, None) && OwnerOf(before, after, b.index) == b.owner
      ensures AmountAt(pre, b.index) == AmountIn(before, b.index) && AmountAt(post, b.index) == AmountIn(after, b.index)
    {
      PlainDistinct(pre, post, keys);
      PlainAt(pre, post, keys, b.index);
      if b in pre {
        EntryAt(pre, b);
      } else {
        EntryAt(post, b);
      }
      AmountAtIs(pre, b.index);
      AmountAtIs(post, b.index);
    }
    forall i | i in Accounts(before, after, None) ensures exists b :: b in pre + post && b.index == i {
      PlainAt(pre, post, keys, i);
    }
  }

  // Which entries the verdict looks at.

  /** The list without the entries of some accounts. */
  function Without(balances: seq<Balance>, accounts: set<nat>): seq<Balance> {
    if balances == [] then []
    else
      var b := balances[|balances| - 1];
      Without(balances[..|balances| - 1], accounts) + (if b.index in accounts then [] else [b])
  }

  /** The accounts carry another mint than USDC, each the same one before and after. */
  predicate Foreign(pre: seq<Balance>, post: seq<Balance>, accounts: set<nat>) {
    && (forall b :: b in pre + post && b.index in accounts ==> b.mint != USDC)
    && (forall a, b :: a in pre && b in post && a.index == b.index && a.index in accounts ==> a.mint == b.mint)
  }

  function Kept(indexes: seq<nat>, accounts: set<nat>): seq<nat> {
    if indexes == [] then []
    else Kept(Front(indexes), accounts) + (if Last(indexes) in accounts then [] else [Last(indexes)])
  }

  lemma {:induction false} WithoutHas(balances: seq<Balance>, accounts: set<nat>)
    ensures forall b :: b in Without(balances, accounts) <==> b in balances && b.index !in accounts
  {
    if balances == [] {
    } else {
      var front, b := Front(balances), Last(balances);
      WithoutHas(front, accounts);
      assert balances == front + [b];
    }
  }

  lemma {:induction false} WithoutIndexes(balances: seq<Balance>, accounts: set<nat>)
    ensures IndexesOf(Without(balances, accounts)) == Kept(IndexesOf(balances), accounts)
  {
    if balances == [] {
      assert IndexesOf([]) == [];
    } else {
      var front, b := Front(balances), Last(balances);
      WithoutIndexes(front, accounts);
      assert Front(IndexesOf(balances)) == IndexesOf(front) && Last(IndexesOf(balances)) == b.index;
      var left := Without(front, accounts);
      if b.index in accounts {
        assert left + [] == left && IndexesOf(left) + [] == IndexesOf(left);
      } else {
        assert IndexesOf(left + [b]) == IndexesOf(left) + [b.index];
      }
    }
  }

  lemma IndexedAppended(front: seq<Balance>, b: Balance)
    ensures Indexed(front + [b]) == Indexed(front)[b.index := b]
  {
    assert Front(front + [b]) == front && Last(front + [b]) == b;
  }

  lemma WithoutAppended(front: seq<Balance>, b: Balance, accounts: set<nat>)
    ensures Without(front + [b], accounts) ==
      if b.index in accounts then Without(front, accounts) else Without(front, accounts) + [b]
  {
    assert (front + [b])[..|front|] == front;
  }

  lemma UpdateWithout(m: Snapshot, i: nat, b: Balance, accounts: set<nat>)
    ensures m[i := b] - accounts == if i in accounts then m - accounts else (m - accounts)[i := b]
  {
  }

  lemma {:induction false} WithoutIndexed(balances: seq<Balance>, accounts: set<nat>)
    ensures Indexed(Without(balances, accounts)) == Indexed(balances) - accounts
  {
    if balances == [] {
    } else {
      hide Indexed, Without;
      var front, b := Front(balances), Last(balances);
      assert balances == front + [b];
      WithoutIndexed(front, accounts);
      IndexedAppended(front, b);
      WithoutAppended(front, b, accounts);
      IndexedAppended(Without(front, accounts), b);
      UpdateWithout(Indexed(front), b.index, b, accounts);
    }
  }

  lemma {:induction false} WithoutStaysDistinct(balances: seq<Balance>, accounts: set<nat>)
    requires Distinct(balances)
    ensures Distinct(Without(balances, accounts))
  {
    if balances == [] {
    } else {
      var front, b := Front(balances), Last(balances);
      WithoutStaysDistinct(front, accounts);
      WithoutHas(front, accounts);
      var left := Without(front, accounts);
      forall j | 0 <= j < |left| ensures left[j].index != b.index {
        assert left[j] in front;
        var k :| 0 <= k < |front| && front[k] == left[j];
        assert balances[k] == left[j] && balances[|balances| - 1] == b;
      }
    }
  }

  lemma {:induction false} KeptTail(x: nat, indexes: seq<nat>, accounts: set<nat>)
    ensures Kept([x] + indexes, accounts) == (if x in accounts then [] else [x]) + Kept(indexes, accounts)
  {
    if indexes == [] {
      assert [x] + indexes == [x] && Front([x]) == [] && Last([x]) == x;
    } else {
      KeptTail(x, Front(indexes), accounts);
      assert Front([x] + indexes) == [x] + Front(indexes) && Last([x] + indexes) == Last(indexes);
    }
  }

  lemma {:induction false} KeptJoined(a: seq<nat>, b: seq<nat>, accounts: set<nat>)
    ensures Kept(a + b, accounts) == Kept(a, accounts) + Kept(b, accounts)
  {
    if b == [] {
      assert a + b == a;
    } else {
      KeptJoined(a, Front(b), accounts);
      assert Front(a + b) == a + Front(b) && Last(a + b) == Last(b);
    }
  }

  lemma {:induction false} UnseenKept(indexes: seq<nat>, seen: set<nat>, accounts: set<nat>)
    ensures Kept(Unseen(indexes, seen), accounts) == Unseen(Kept(indexes, accounts), seen - accounts)
    decreases |indexes|
  {
    if indexes == [] {
    } else {
      var x, rest := indexes[0], indexes[1..];
      UnseenKept(rest, seen, accounts);
      assert indexes == [x] + rest;
      KeptTail(x, rest, accounts);
      KeptTail(x, Unseen(rest, seen), accounts);
      UnseenHead(x, Kept(rest, accounts), seen - accounts);
    }
  }

  lemma UnseenHead(x: nat, rest: seq<nat>, seen: set<nat>)
    ensures Unseen([x] + rest, seen) == (if x in seen then [] else [x]) + Unseen(rest, seen)
    ensures [] + rest == rest
  {
    assert ([x] + rest)[1..] == rest;
  }

  lemma IndexesKept(pre: seq<Balance>, post: seq<Balance>, accounts: set<nat>)
    ensures AllIndexes(Without(pre, accounts), Without(post, accounts)) == Kept(AllIndexes(pre, post), accounts)
  {
    WithoutHas(pre, accounts);
    WithoutIndexes(pre, accounts);
    WithoutIndexes(post, accounts);
    var seen, left := set b | b in pre :: b.index, set b | b in Without(pre, accounts) :: b.index;
    assert left == seen - accounts by {
      forall i ensures i in left <==> i in seen - accounts {
        if i in seen - accounts {
          var b :| b in pre && b.index == i;
          assert b in Without(pre, accounts);
        }
      }
    }
    KeptJoined(IndexesOf(pre), Unseen(IndexesOf(post), seen), accounts);
    UnseenKept(IndexesOf(post), seen, accounts);
  }

  lemma {:induction false} DeltasKept(pre: Snapshot, post: Snapshot, indexes: seq<nat>, accounts: set<nat>)
    requires forall i :: i in indexes && i in accounts ==> !IsUsdc(pre, post, i)
    ensures DeltasOf(pre - accounts, post - accounts, Kept(indexes, accounts)) == DeltasOf(pre, post, indexes)
  {
    if indexes == [] {
    } else {
      var front, i := Front(indexes), Last(indexes);
      assert indexes == front + [i];
      DeltasKept(pre, post, front, accounts);
      var kept := Kept(front, accounts);
      if i in accounts {
        assert kept + [] == kept && DeltasOf(pre, post, front) + [] == DeltasOf(pre, post, front);
      } else {
        assert Front(kept + [i]) == kept && Last(kept + [i]) == i;
      }
    }
  }

  lemma {:induction false} KeptMeans(indexes: seq<nat>, accounts: set<nat>)
    ensures forall i :: i in Kept(indexes, accounts) <==> i in indexes && i !in accounts
  {
    if indexes == [] {
    } else {
      assert indexes == Front(indexes) + [Last(indexes)];
      KeptMeans(Front(indexes), accounts);
    }
  }

  /**
   * Accounts of other mints do not matter: taking them out of both lists leaves the verdict, and its
   * deltas, as they are.
   */
  lemma OtherMintsDoNotMatter(pre: seq<Balance>, post: seq<Balance>, keys: nat, payer: string, payee: string,
      amount: int, accounts: set<nat>)
    requires Distinct(pre) && Distinct(post) && Foreign(pre, post, accounts)
    ensures Verdict(Without(pre, accounts), Without(post, accounts), keys, payer, payee, amount) ==
      Verdict(pre, post, keys, payer, payee, amount)
  {
    var before, after, all := Indexed(pre), Indexed(post), AllIndexes(pre, post);
    WithoutIndexed(pre, accounts);
    WithoutIndexed(post, accounts);
    WithoutStaysDistinct(pre, accounts);
    WithoutStaysDistinct(post, accounts);
    IndexesKept(pre, post, accounts);
    KeptMeans(all, accounts);
    DistinctIs(pre);
    DistinctIs(post);
    DistinctIs(Without(pre, accounts));
    DistinctIs(Without(post, accounts));
    forall i | i in all && i in accounts ensures !IsUsdc(before, after, i) && AccountFine(before, after, keys, i) {
      ForeignAt(pre, post, accounts, keys, i);
    }
    forall i | i !in accounts
      ensures AccountFine(before - accounts, after - accounts, keys, i) == AccountFine(before, after, keys, i)
    {
      SameAt(before, after, accounts, keys, i);
    }
    DeltasKept(before, after, all, accounts);
    hide Indexed, AllIndexes, DeltasOf, AccountFine, Without, Kept, Balanced, Distinct, DistinctIndexes, IsUsdc;
  }

  lemma DistinctIs(balances: seq<Balance>)
    ensures Distinct(balances) <==> DistinctIndexes(balances)
  {
  }

  lemma ForeignAt(pre: seq<Balance>, post: seq<Balance>, accounts: set<nat>, keys: nat, i: nat)
    requires Foreign(pre, post, accounts) && i in accounts
    ensures !IsUsdc(Indexed(pre), Indexed(post), i) && AccountFine(Indexed(pre), Indexed(post), keys, i)
  {
    hide Indexed;
    if i in Indexed(pre) {
      IndexedIsEntry(pre, i);
      assert Indexed(pre)[i] in pre + post;
    }
    if i in Indexed(post) {
      IndexedIsEntry(post, i);
      assert Indexed(post)[i] in pre + post;
    }
  }

  lemma SameAt(pre: Snapshot, post: Snapshot, accounts: set<nat>, keys: nat, i: nat)
    requires i !in accounts
    ensures AccountFine(pre - accounts, post - accounts, keys, i) == AccountFine(pre, post, keys, i)
  {
  }

  // The deltas.

  /** The deltas of an accepted settlement are the USDC accounts that changed, each once, with what they held. */
  lemma DeltasAreTheChanges(pre: seq<Balance>, post: seq<Balance>, keys: nat, payer: string, payee: string,
      amount: int, d: Delta)
    requires PlainUsdc(pre, post, keys) && Verdict(pre, post, keys, payer, payee, amount).Ok?
    ensures d in Verdict(pre, post, keys, payer, payee, amount).value <==>
      && d.before == AmountAt(pre, d.index) && d.after == AmountAt(post, d.index) && d.before != d.after
      && exists b :: b in pre + post && b.index == d.index && b.owner == Some(d.owner)
  {
    var before, after, all := Indexed(pre), Indexed(post), AllIndexes(pre, post);
    PlainDistinct(pre, post, keys);
    AllIndexesMeans(pre, post);
    PlainIsFine(pre, post, keys);
    DeltasHave(before, after, all, d);
    AmountAtIs(pre, d.index);
    AmountAtIs(post, d.index);
    OwnerAt(pre, post, keys, d);
    hide Indexed, AllIndexes, DeltasOf, AccountFine, Balanced, DistinctIndexes, IsUsdc, AmountAt;
  }

  lemma OwnerAt(pre: seq<Balance>, post: seq<Balance>, keys: nat, d: Delta)
    requires PlainUsdc(pre, post, keys)
    ensures (exists b :: b in pre + post && b.index == d.index && b.owner == Some(d.owner)) <==>
      d.index in Indexed(pre).Keys + Indexed(post).Keys && OwnerOf(Indexed(pre), Indexed(post),
        d.index) == Some(d.owner)
  {
    hide Indexed, PlainUsdc;
    PlainAt(pre, post, keys, d.index);
    PlainDistinct(pre, post, keys);
    forall b | b in pre + post && b.index == d.index
      ensures d.index in Indexed(pre).Keys + Indexed(post).Keys
      ensures OwnerOf(Indexed(pre), Indexed(post), d.index) == b.owner
    {
      if b in pre {
        EntryAt(pre, b);
      } else {
        EntryAt(post, b);
      }
    }
  }

  lemma {:induction false} DeltasHave(pre: Snapshot, post: Snapshot, indexes: seq<nat>, d: Delta)
    ensures d in DeltasOf(pre, post, indexes) <==>
      && d.index in indexes && Moves(pre, post, d.index)
      && d == Delta(d.index, OwnerOf(pre, post, d.index).value, AmountIn(pre, d.index), AmountIn(post, d.index))
  {
    if indexes == [] {
    } else {
      DeltasHave(pre, post, Front(indexes), d);
      assert indexes == Front(indexes) + [Last(indexes)];
    }
  }

  // Owners given in one list only.

  lemma {:induction false} IndexedReplaced(balances: seq<Balance>, j: nat, b: Balance)
    requires Distinct(balances) && j < |balances| && b.index == balances[j].index
    ensures Indexed(balances[j := b]) == Indexed(balances)[b.index := b]
  {
    hide Indexed;
    var front, last, after := Front(balances), Last(balances), balances[j := b];
    assert balances == front + [last];
    IndexedAppended(front, last);
    if j == |balances| - 1 {
      assert after == front + [b];
      IndexedAppended(front, b);
    } else {
      assert after == front[j := b] + [last];
      IndexedReplaced(front, j, b);
      IndexedAppended(front[j := b], last);
      assert balances[j].index != last.index;
    }
  }

  lemma IndexesReplaced(balances: seq<Balance>, j: nat, b: Balance)
    requires j < |balances| && b.index == balances[j].index
    ensures IndexesOf(balances[j := b]) == IndexesOf(balances)
  {
  }

  /** What the verdict sees of an account is the same, whichever of the two lists names the owner. */
  predicate SeenAlike(b: Snapshot, a: Snapshot, b': Snapshot, a': Snapshot, i: nat) {
    && (i in b <==> i in b') && (i in a <==> i in a')
    && (i in b ==> b'[i] == b[i].(owner := b'[i].owner))
    && (i in a ==> a'[i] == a[i].(owner := a'[i].owner))
    && OwnerOf(b, a, i) == OwnerOf(b', a', i)
    && (Truthy(OwnerIn(b, i)) && Truthy(OwnerIn(a, i)) && OwnerIn(b, i) != OwnerIn(a, i) <==>
        Truthy(OwnerIn(b', i)) && Truthy(OwnerIn(a', i)) && OwnerIn(b', i) != OwnerIn(a', i))
  }

  /** An owner that is omitted before the transaction is taken from the entry after it. */
  lemma OmittedOwnerBefore(pre: seq<Balance>, post: seq<Balance>, j: nat, k: nat, keys: nat, payer: string,
      payee: string, amount: int)
    requires Distinct(pre) && Distinct(post) && j < |pre| && k < |post| && pre[j].index == post[k].index
    requires pre[j].owner.None? && post[k].owner.Some?
    ensures Verdict(pre[j := pre[j].(owner := post[k].owner)], post, keys, payer, payee, amount) ==
      Verdict(pre, post, keys, payer, payee, amount)
  {
    hide Indexed, IndexesOf, Verdict, Distinct;
    var b := pre[j].(owner := post[k].owner);
    IndexedReplaced(pre, j, b);
    IndexesReplaced(pre, j, b);
    EntryAt(pre, pre[j]);
    EntryAt(post, post[k]);
    var before, after, filled := Indexed(pre), Indexed(post), Indexed(pre[j := b]);
    forall i ensures SeenAlike(before, after, filled, after, i) {
    }
    SameVerdict(pre, post, pre[j := b], post, keys, payer, payee, amount);
  }

  /** ... and one that is omitted after it from the entry before. */
  lemma OmittedOwnerAfter(pre: seq<Balance>, post: seq<Balance>, j: nat, k: nat, keys: nat, payer: string,
      payee: string, amount: int)
    requires Distinct(pre) && Distinct(post) && j < |pre| && k < |post| && pre[j].index == post[k].index
    requires pre[j].owner.Some? && post[k].owner.None?
    ensures Verdict(pre, post[k := post[k].(owner := pre[j].owner)], keys, payer, payee, amount) ==
      Verdict(pre, post, keys, payer, payee, amount)
  {
    hide Indexed, IndexesOf, Verdict, Distinct;
    var b := post[k].(owner := pre[j].owner);
    IndexedReplaced(post, k, b);
    IndexesReplaced(post, k, b);
    EntryAt(pre, pre[j]);
    EntryAt(post, post[k]);
    var before, after, filled := Indexed(pre), Indexed(post), Indexed(post[k := b]);
    forall i ensures SeenAlike(before, after, before, filled, i) {
    }
    SameVerdict(pre, post, pre, post[k := b], keys, payer, payee, amount);
  }

  lemma SameVerdict(pre: seq<Balance>, post: seq<Balance>, pre': seq<Balance>, post': seq<Balance>, keys: nat,
      payer: string, payee: string, amount: int)
    requires IndexesOf(pre) == IndexesOf(pre') && IndexesOf(post) == IndexesOf(post')
    requires forall i :: SeenAlike(Indexed(pre), Indexed(post), Indexed(pre'), Indexed(post'), i)
    ensures Verdict(pre', post', keys, payer, payee, amount) == Verdict(pre, post, keys, payer, payee, amount)
  {
    hide Indexed, AllIndexes, Balanced, DistinctIndexes, IndexesOf, AccountFine, DeltasOf, SeenAlike;
    var b, a, b', a', all := Indexed(pre), Indexed(post), Indexed(pre'), Indexed(post'), AllIndexes(pre, post);
    SameIndexes(pre, post, pre', post');
    forall i ensures AccountFine(b', a', keys, i) == AccountFine(b, a, keys, i) {
      SameFine(b, a, b', a', keys, i);
    }
    SameDeltas(b, a, b', a', all);
  }

  lemma SameFine(b: Snapshot, a: Snapshot, b': Snapshot, a': Snapshot, keys: nat, i: nat)
    requires SeenAlike(b, a, b', a', i)
    ensures AccountFine(b', a', keys, i) == AccountFine(b, a, keys, i)
  {
  }

  lemma SameIndexes(pre: seq<Balance>, post: seq<Balance>, pre': seq<Balance>, post': seq<Balance>)
    requires IndexesOf(pre) == IndexesOf(pre') && IndexesOf(post) == IndexesOf(post')
    ensures AllIndexes(pre', post') == AllIndexes(pre, post)
    ensures DistinctIndexes(pre') == DistinctIndexes(pre) && DistinctIndexes(post') == DistinctIndexes(post)
  {
    DistinctByIndexes(pre);
    DistinctByIndexes(pre');
    DistinctByIndexes(post);
    DistinctByIndexes(post');
    SeenByIndexes(pre);
    SeenByIndexes(pre');
  }

  lemma SeenByIndexes(balances: seq<Balance>)
    ensures (set b | b in balances :: b.index) == set i | i in IndexesOf(balances)
  {
    forall i ensures (exists b :: b in balances && b.index == i) <==> i in IndexesOf(balances) {
      if b :| b in balances && b.index == i {
        var k :| 0 <= k < |balances| && balances[k] == b;
        assert IndexesOf(balances)[k] == i;
      }
      if i in IndexesOf(balances) {
        var k :| 0 <= k < |balances| && IndexesOf(balances)[k] == i;
        assert balances[k] in balances;
      }
    }
  }

  lemma DistinctByIndexes(balances: seq<Balance>)
    ensures DistinctIndexes(balances) <==> NoRepeats(IndexesOf(balances))
  {
    var indexes := IndexesOf(balances);
    assert forall k :: 0 <= k < |balances| ==> indexes[k] == balances[k].index;
  }

  lemma {:induction false} SameDeltas(b: Snapshot, a: Snapshot, b': Snapshot, a': Snapshot, indexes: seq<nat>)
    requires forall i :: SeenAlike(b, a, b', a', i)
    ensures DeltasOf(b', a', indexes) == DeltasOf(b, a, indexes)
  {
    if indexes == [] {
    } else {
      SameDeltas(b, a, b', a', Front(indexes));
      assert SeenAlike(b, a, b', a', Last(indexes));
    }
  }
}
