/**
 * packages/payments/src/settlement.ts: from the token balances around a
 * transaction to the verdict that it moved exactly the expected amount.
 */
module Settlement {
  import opened Prelude

  /** One entry of preTokenBalances or postTokenBalances; the amount text is already a number. */
  datatype Balance = Balance(index: nat, mint: string, owner: Option<string>, decimals: int, amount: nat)

  datatype Delta = Delta(index: nat, owner: string, before: nat, after: nat) {
    function Change(): int { after - before }
  }

  type Snapshot = map<nat, Balance>

  const DEVNET_USDC_MINT := "4zMMC9srt5Ri5X14GAgXhaHii3GnPAEERYPJgZJDncDU"
  const USDC_DECIMALS := 6

  function Last<T>(s: seq<T>): T
    requires s != []
  {
    s[|s| - 1]
  }

  function Front<T>(s: seq<T>): seq<T>
    requires s != []
  {
    s[..|s| - 1]
  }

  function Indexed(balances: seq<Balance>): (m: Snapshot)
    ensures forall i :: i in m <==> exists b :: b in balances && b.index == i
    ensures forall i :: i in m ==> m[i].index == i
  {
    if balances == [] then map[] else
      assert balances == Front(balances) + [Last(balances)];
      Indexed(Front(balances))[Last(balances).index := Last(balances)]
  }

  predicate DistinctIndexes(balances: seq<Balance>) {
    forall i, j :: 0 <= i < j < |balances| ==> balances[i].index != balances[j].index
  }

  /** One turn of the loop of indexTokenBalances. */
  lemma IndexedStep(balances: seq<Balance>, k: nat)
    requires k < |balances| && DistinctIndexes(balances[..k])
    ensures Indexed(balances[..k + 1]) == Indexed(balances[..k])[balances[k].index := balances[k]]
    ensures DistinctIndexes(balances[..k + 1]) <==> balances[k].index !in Indexed(balances[..k])
    ensures balances[k].index in Indexed(balances[..k]) ==> !DistinctIndexes(balances)
  {
    var front, b := balances[..k], balances[k];
    assert Front(balances[..k + 1]) == front && Last(balances[..k + 1]) == b;
    if b.index in Indexed(front) {
      var seen :| seen in front && seen.index == b.index;
      var j :| 0 <= j < k && front[j] == seen;
      assert balances[j].index == balances[k].index && balances[..k + 1][j].index == balances[..k + 1][k].index;
    } else {
      hide Indexed;
      forall j | 0 <= j < k ensures balances[j].index != b.index {
        assert front[j] in front;
      }
    }
  }

  lemma IndexedNothing()
    ensures Indexed([]) == map[] && DistinctIndexes([])
  {
  }

  method IndexTokenBalances(balances: seq<Balance>) returns (r: Result<Snapshot>)
    ensures r == if DistinctIndexes(balances) then Ok(Indexed(balances)) else Rejected
  {
    hide Indexed, DistinctIndexes;
    var indexed: Snapshot := map[];
    IndexedNothing();
    for k := 0 to |balances|
      invariant DistinctIndexes(balances[..k]) && indexed == Indexed(balances[..k])
    {
      var balance := balances[k];
      IndexedStep(balances, k);
      if balance.index in indexed {
        return Rejected;
      }
      indexed := indexed[balance.index := balance];
    }
    assert balances[..|balances|] == balances;
    return Ok(indexed);
  }

  // What the delta loop looks at, account by account.

  function AmountIn(m: Snapshot, i: nat): nat {
    if i in m then m[i].amount else 0
  }

  function OwnerIn(m: Snapshot, i: nat): Option<string> {
    if i in m then m[i].owner else None
  }

  /** The mint the loop sees: that of the earlier balance, if there is one. */
  function MintOf(pre: Snapshot, post: Snapshot, i: nat): Option<string> {
    if i in pre then Some(pre[i].mint) else if i in post then Some(post[i].mint) else None
  }

  predicate IsUsdc(pre: Snapshot, post: Snapshot, i: nat) {
    MintOf(pre, post, i) == Some(DEVNET_USDC_MINT)
  }

  function OwnerOf(pre: Snapshot, post: Snapshot, i: nat): Option<string> {
    Coalesce(OwnerIn(pre, i), OwnerIn(post, i))
  }

  function ChangeAt(pre: Snapshot, post: Snapshot, i: nat): int {
    AmountIn(post, i) - AmountIn(pre, i)
  }

  /** An account the loop does not object to. */
  predicate AccountFine(pre: Snapshot, post: Snapshot, accountKeys: nat, i: nat) {
    && (i in pre && i in post ==> pre[i].mint == post[i].mint)
    && (IsUsdc(pre, post, i) ==>
        && (i in pre ==> pre[i].decimals == USDC_DECIMALS)
        && (i in post ==> post[i].decimals == USDC_DECIMALS)
        && (Truthy(OwnerIn(pre, i)) && Truthy(OwnerIn(post, i)) ==> OwnerIn(pre, i) == OwnerIn(post, i))
        && Truthy(OwnerOf(pre, post, i))
        && (ChangeAt(pre, post, i) != 0 ==> i < accountKeys))
  }

  predicate Moves(pre: Snapshot, post: Snapshot, i: nat) {
    IsUsdc(pre, post, i) && ChangeAt(pre, post, i) != 0 && OwnerOf(pre, post, i).Some?
  }

  function DeltasOf(pre: Snapshot, post: Snapshot, indexes: seq<nat>): seq<Delta> {
    if indexes == [] then []
    else
      var i := Last(indexes);
      DeltasOf(pre, post, Front(indexes)) +
      if Moves(pre, post, i) then [Delta(i, OwnerOf(pre, post, i).value, AmountIn(pre, i), AmountIn(post, i))] else []
  }

  function IndexesOf(balances: seq<Balance>): seq<nat> {
    seq(|balances|, k requires 0 <= k < |balances| => balances[k].index)
  }

  function Unseen(indexes: seq<nat>, seen: set<nat>): seq<nat> {
    if indexes == [] then []
    else if indexes[0] in seen then Unseen(indexes[1..], seen)
    else [indexes[0]] + Unseen(indexes[1..], seen)
  }

  /** `new Set([...pre.keys(), ...post.keys()])`, in its iteration order */
  function AllIndexes(pre: seq<Balance>, post: seq<Balance>): seq<nat> {
    IndexesOf(pre) + Unseen(IndexesOf(post), set b | b in pre :: b.index)
  }

  method CollectDeltas(pre: Snapshot, post: Snapshot, accountKeys: nat, indexes: seq<nat>)
      returns (r: Result<seq<Delta>>)
    ensures r ==
      if forall i :: i in indexes ==> AccountFine(pre, post, accountKeys, i) then Ok(DeltasOf(pre, post, indexes))
        else Rejected
  {
    hide DeltasOf, AccountFine;
    var deltas: seq<Delta> := [];
    assert indexes[..0] == [] && DeltasOf(pre, post, []) == [] by {
      NoDeltas(pre, post);
    }
    for k := 0 to |indexes|
      invariant forall i :: i in indexes[..k] ==> AccountFine(pre, post, accountKeys, i)
      invariant deltas == DeltasOf(pre, post, indexes[..k])
    {
      var index := indexes[k];
      DeltasStep(pre, post, indexes, k);
      FineMeans(pre, post, accountKeys, index);
      var before, after := Find(pre, index), Find(post, index);
      if before.Some? && after.Some? && before.value.mint != after.value.mint {
        return Rejected;
      }
      var observedMint := if before.Some? then Some(before.value.mint) else if after.Some? then Some(after.value.mint)
        else None;
      if observedMint != Some(DEVNET_USDC_MINT) {
        continue;
      }
      if (before.Some? && before.value.decimals != USDC_DECIMALS)
        || (after.Some? && after.value.decimals != USDC_DECIMALS) {
        return Rejected;
      }
      var ownerBefore := if before.Some? then before.value.owner else None;
      var ownerAfter := if after.Some? then after.value.owner else None;
      if Truthy(ownerBefore) && Truthy(ownerAfter) && ownerBefore != ownerAfter {
        return Rejected;
      }
      var owner := Coalesce(ownerBefore, ownerAfter);
      if !Truthy(owner) {
        return Rejected;
      }
      var preAmount := if before.Some? then before.value.amount else 0;
      var postAmount := if after.Some? then after.value.amount else 0;
      if postAmount - preAmount == 0 {
        continue;
      }
      if index >= accountKeys {
        return Rejected;
      }
      deltas := deltas + [Delta(index, owner.value, preAmount, postAmount)];
    }
    assert indexes[..|indexes|] == indexes;
    return Ok(deltas);
  }

  lemma NoDeltas(pre: Snapshot, post: Snapshot)
    ensures DeltasOf(pre, post, []) == []
  {
  }

  /** One turn of the delta loop. */
  lemma DeltasStep(pre: Snapshot, post: Snapshot, indexes: seq<nat>, k: nat)
    requires k < |indexes|
    ensures DeltasOf(pre, post, indexes[..k + 1]) == DeltasOf(pre, post, indexes[..k]) +
      if Moves(pre, post, indexes[k])
      then [Delta(indexes[k], OwnerOf(pre, post, indexes[k]).value, AmountIn(pre, indexes[k]),
        AmountIn(post, indexes[k]))]
      else []
    ensures indexes[..k + 1] == indexes[..k] + [indexes[k]] && indexes[k] in indexes
  {
    assert Front(indexes[..k + 1]) == indexes[..k] && Last(indexes[..k + 1]) == indexes[k];
  }

  lemma FineMeans(pre: Snapshot, post: Snapshot, accountKeys: nat, i: nat)
    ensures
      var before, after := Find(pre, i), Find(post, i);
      AccountFine(pre, post, accountKeys, i) <==>
        && (before.Some? && after.Some? ==> before.value.mint == after.value.mint)
        && (IsUsdc(pre, post, i) ==>
            && (before.Some? ==> before.value.decimals == USDC_DECIMALS)
            && (after.Some? ==> after.value.decimals == USDC_DECIMALS)
            && (Truthy(OwnerIn(pre, i)) && Truthy(OwnerIn(post, i)) ==> OwnerIn(pre, i) == OwnerIn(post, i))
            && Truthy(OwnerOf(pre, post, i))
            && (ChangeAt(pre, post, i) != 0 ==> i < accountKeys))
  {
  }

  /** `deltas.filter(owner).reduce(+)`; None adds up every owner. */
  function SumOf(deltas: seq<Delta>, who: Option<string>): int {
    if deltas == [] then 0
    else
      SumOf(Front(deltas), who) +
      if who.None? || Last(deltas).owner == who.value then Last(deltas).Change() else 0
  }

  /** The tests after the loop, in order. */
  predicate Balanced(deltas: seq<Delta>, payer: string, payee: string, amount: int) {
    && (forall d :: d in deltas ==> d.owner == payer || d.owner == payee)
    && SumOf(deltas, Some(payer)) == -amount && SumOf(deltas, Some(payee)) == amount && SumOf(deltas, None) == 0
    && (exists d :: d in deltas && d.owner == payer && d.Change() < 0)
    && (exists d :: d in deltas && d.owner == payee && d.Change() > 0)
  }

  function Verdict(pre: seq<Balance>, post: seq<Balance>, accountKeys: nat, payer: string, payee: string,
      amount: int): Result<seq<Delta>> {
    var before, after, indexes := Indexed(pre), Indexed(post), AllIndexes(pre, post);
    if amount <= 0 || payer == payee || !DistinctIndexes(pre) || !DistinctIndexes(post) then Rejected
    else if exists i :: i in indexes && !AccountFine(before, after, accountKeys, i) then Rejected
    else
      var deltas := DeltasOf(before, after, indexes);
      if Balanced(deltas, payer, payee, amount) then Ok(deltas) else Rejected
  }

  method VerifyDeltas(pre: seq<Balance>, post: seq<Balance>, accountKeys: nat, payer: string, payee: string,
      amount: int)
    returns (r: Result<seq<Delta>>)
    ensures r == Verdict(pre, post, accountKeys, payer, payee, amount)
  {
    hide Indexed, DeltasOf, AccountFine, AllIndexes, DistinctIndexes, SumOf;
    if amount <= 0 || payer == payee {
      return Rejected;
    }
    var before := IndexTokenBalances(pre);
    if before.Rejected? {
      return Rejected;
    }
    var after := IndexTokenBalances(post);
    if after.Rejected? {
      return Rejected;
    }
    var collected := CollectDeltas(before.value, after.value, accountKeys, AllIndexes(pre, post));
    if collected.Rejected? {
      return Rejected;
    }
    var deltas := collected.value;
    if exists d :: d in deltas && d.owner != payer && d.owner != payee {
      return Rejected;
    }
    if SumOf(deltas, Some(payer)) != -amount || SumOf(deltas, Some(payee)) != amount || SumOf(deltas, None) != 0 {
      return Rejected;
    }
    if !exists d :: d in deltas && d.owner == payer && d.Change() < 0 {
      return Rejected;
    }
    if !exists d :: d in deltas && d.owner == payee && d.Change() > 0 {
      return Rejected;
    }
    return Ok(deltas);
  }
}

/** What a verified settlement says about the balances, and which of its tests say nothing new. */
module SettlementConservation {
  import opened Prelude
  import opened Settlement

  /** What a list of balances holds in some accounts. */
  function Held(balances: seq<Balance>, accounts: set<nat>): int {
    if balances == [] then 0
    else Held(Front(balances), accounts) + if Last(balances).index in accounts then Last(balances).amount else 0
  }

  /** The USDC accounts of an owner, or of everyone. */
  function Accounts(pre: Snapshot, post: Snapshot, who: Option<string>): set<nat> {
    set i | i in pre.Keys + post.Keys && IsUsdc(pre, post, i) && (who.None? || OwnerOf(pre, post, i) == who)
  }

  // The sums of the deltas are differences of what is held.

  function HeldAt(m: Snapshot, indexes: seq<nat>, accounts: set<nat>): int {
    if indexes == [] then 0
    else HeldAt(m, Front(indexes), accounts) + if Last(indexes) in accounts then AmountIn(m, Last(indexes)) else 0
  }

  predicate NoRepeats(indexes: seq<nat>) {
    forall i, j :: 0 <= i < j < |indexes| ==> indexes[i] != indexes[j]
  }

  lemma {:induction false} HeldAtOneMore(m: Snapshot, b: Balance, indexes: seq<nat>, accounts: set<nat>)
    requires NoRepeats(indexes) && b.index !in m
    ensures HeldAt(m[b.index := b], indexes, accounts) ==
      HeldAt(m, indexes, accounts) + if b.index in indexes && b.index in accounts then b.amount else 0
  {
    if indexes == [] {
    } else {
      HeldAtOneMore(m, b, Front(indexes), accounts);
      assert indexes == Front(indexes) + [Last(indexes)];
    }
  }

  lemma {:induction false} HeldIsHeldAt(balances: seq<Balance>, indexes: seq<nat>, accounts: set<nat>)
    requires DistinctIndexes(balances) && NoRepeats(indexes) && forall b :: b in balances ==> b.index in indexes
    ensures Held(balances, accounts) == HeldAt(Indexed(balances), indexes, accounts)
  {
    if balances == [] {
      HeldAtNothing(indexes, accounts);
    } else {
      var front, b := Front(balances), Last(balances);
      HeldIsHeldAt(front, indexes, accounts);
      FrontMisses(balances);
      HeldAtOneMore(Indexed(front), b, indexes, accounts);
      assert b in balances;
    }
  }

  lemma FrontMisses(balances: seq<Balance>)
    requires balances != [] && DistinctIndexes(balances)
    ensures Last(balances).index !in Indexed(Front(balances))
  {
    hide Indexed;
    forall b | b in Front(balances) ensures b.index != Last(balances).index {
    }
  }

  lemma {:induction false} HeldAtNothing(indexes: seq<nat>, accounts: set<nat>)
    ensures HeldAt(map[], indexes, accounts) == 0
  {
    if indexes == [] {
    } else {
      HeldAtNothing(Front(indexes), accounts);
    }
  }

  lemma {:induction false} SumIsDifference(pre: Snapshot, post: Snapshot, accountKeys: nat, indexes: seq<nat>,
      who: Option<string>)
    requires forall i :: i in indexes ==> i in pre.Keys + post.Keys && AccountFine(pre, post, accountKeys, i)
    ensures SumOf(DeltasOf(pre, post, indexes), who) ==
      HeldAt(post, indexes, Accounts(pre, post, who)) - HeldAt(pre, indexes, Accounts(pre, post, who))
  {
    if indexes == [] {
    } else {
      var front, i := Front(indexes), Last(indexes);
      SumIsDifference(pre, post, accountKeys, front, who);
      assert i in indexes && AccountFine(pre, post, accountKeys, i);
      OneAccount(pre, post, accountKeys, i, DeltasOf(pre, post, front), who);
    }
  }

  lemma OneAccount(pre: Snapshot, post: Snapshot, accountKeys: nat, i: nat, deltas: seq<Delta>, who: Option<string>)
    requires i in pre.Keys + post.Keys && AccountFine(pre, post, accountKeys, i)
    ensures
      var more := if Moves(pre, post, i) then [Delta(i, OwnerOf(pre, post, i).value, AmountIn(pre, i),
        AmountIn(post, i))] else [];
      SumOf(deltas + more, who) ==
        SumOf(deltas, who) + if i in Accounts(pre, post, who) then AmountIn(post, i) - AmountIn(pre, i) else 0
  {
    if Moves(pre, post, i) {
      var d := Delta(i, OwnerOf(pre, post, i).value, AmountIn(pre, i), AmountIn(post, i));
      assert Front(deltas + [d]) == deltas && Last(deltas + [d]) == d;
    } else {
      assert deltas + [] == deltas;
    }
  }

  lemma {:induction false} UnseenMeans(indexes: seq<nat>, seen: set<nat>)
    requires NoRepeats(indexes)
    ensures var u := Unseen(indexes, seen); NoRepeats(u) && forall i :: i in u <==> i in indexes && i !in seen
  {
    if indexes == [] {
    } else {
      UnseenMeans(indexes[1..], seen);
      assert indexes[0] !in indexes[1..];
    }
  }

  lemma AllIndexesMeans(pre: seq<Balance>, post: seq<Balance>)
    requires DistinctIndexes(pre) && DistinctIndexes(post)
    ensures
      var all := AllIndexes(pre, post);
      NoRepeats(all) && forall i :: i in all <==> i in Indexed(pre).Keys + Indexed(post).Keys
  {
    var seen := set b | b in pre :: b.index;
    IndexesMean(pre);
    IndexesMean(post);
    UnseenMeans(IndexesOf(post), seen);
    var u := Unseen(IndexesOf(post), seen);
    assert forall i :: i in u ==> i !in IndexesOf(pre);
    Joined(IndexesOf(pre), u);
  }

  lemma IndexesMean(balances: seq<Balance>)
    requires DistinctIndexes(balances)
    ensures NoRepeats(IndexesOf(balances))
    ensures forall i :: i in IndexesOf(balances) <==> exists b :: b in balances && b.index == i
  {
    forall i ensures i in IndexesOf(balances) <==> exists b :: b in balances && b.index == i {
      if i in IndexesOf(balances) {
        var k :| 0 <= k < |balances| && IndexesOf(balances)[k] == i;
        assert balances[k] in balances && balances[k].index == i;
      }
      if b :| b in balances && b.index == i {
        var k :| 0 <= k < |balances| && balances[k] == b;
        assert IndexesOf(balances)[k] == i;
      }
    }
  }

  lemma Joined(a: seq<nat>, b: seq<nat>)
    requires NoRepeats(a) && NoRepeats(b) && forall i :: i in b ==> i !in a
    ensures NoRepeats(a + b)
  {
    forall i, j | 0 <= i < j < |a + b| ensures (a + b)[i] != (a + b)[j] {
      if i < |a| <= j {
        assert a[i] in a && b[j - |a|] in b;
      }
    }
  }

  /** The sum of an owner's deltas is what the owner's accounts hold afterwards, less what they held before. */
  lemma SumsAreDifferences(pre: seq<Balance>, post: seq<Balance>, accountKeys: nat, who: Option<string>)
    requires DistinctIndexes(pre) && DistinctIndexes(post)
    requires forall i :: i in AllIndexes(pre, post) ==> AccountFine(Indexed(pre), Indexed(post), accountKeys, i)
    ensures
      var accounts := Accounts(Indexed(pre), Indexed(post), who);
      SumOf(DeltasOf(Indexed(pre), Indexed(post), AllIndexes(pre, post)), who) == Held(post, accounts) - Held(pre,
        accounts)
  {
    hide AccountFine, AllIndexes, DistinctIndexes, NoRepeats, Accounts, DeltasOf, SumOf;
    var all := AllIndexes(pre, post);
    AllIndexesMeans(pre, post);
    SumIsDifference(Indexed(pre), Indexed(post), accountKeys, all, who);
    HeldIsHeldAt(pre, all, Accounts(Indexed(pre), Indexed(post), who));
    HeldIsHeldAt(post, all, Accounts(Indexed(pre), Indexed(post), who));
  }

  // The tests that cannot fail.

  lemma {:induction false} TwoOwnersAddUp(deltas: seq<Delta>, payer: string, payee: string)
    requires payer != payee && forall d :: d in deltas ==> d.owner == payer || d.owner == payee
    ensures SumOf(deltas, None) == SumOf(deltas, Some(payer)) + SumOf(deltas, Some(payee))
  {
    if deltas == [] {
    } else {
      assert Last(deltas) in deltas;
      TwoOwnersAddUp(Front(deltas), payer, payee);
    }
  }

  lemma {:induction false} NegativeSumHasDebit(deltas: seq<Delta>, who: string)
    ensures SumOf(deltas, Some(who)) < 0 ==> exists d :: d in deltas && d.owner == who && d.Change() < 0
    ensures SumOf(deltas, Some(who)) > 0 ==> exists d :: d in deltas && d.owner == who && d.Change() > 0
  {
    if deltas == [] {
    } else {
      NegativeSumHasDebit(Front(deltas), who);
      assert Last(deltas) in deltas;
      assert forall d :: d in Front(deltas) ==> d in deltas;
    }
  }

  /** The total test follows from the two owners' tests, and the two last guards never fire. */
  lemma LastGuardsNeverFire(deltas: seq<Delta>, payer: string, payee: string, amount: int)
    requires amount > 0 && payer != payee
    ensures Balanced(deltas, payer, payee, amount) <==>
      && (forall d :: d in deltas ==> d.owner == payer || d.owner == payee)
      && SumOf(deltas, Some(payer)) == -amount && SumOf(deltas, Some(payee)) == amount
  {
    hide SumOf;
    NegativeSumHasDebit(deltas, payer);
    NegativeSumHasDebit(deltas, payee);
    if forall d :: d in deltas ==> d.owner == payer || d.owner == payee {
      TwoOwnersAddUp(deltas, payer, payee);
    }
  }

  // The verdict, declaratively.

  /** Every account that is not the payer's or the payee's holds what it held. */
  predicate OthersUntouched(pre: Snapshot, post: Snapshot, payer: string, payee: string) {
    forall i :: i in Accounts(pre, post, None) && OwnerOf(pre, post, i) !in {Some(payer), Some(payee)} ==>
      AmountIn(pre, i) == AmountIn(post, i)
  }

  lemma {:induction false} DeltaOwners(pre: Snapshot, post: Snapshot, indexes: seq<nat>, owners: set<string>)
    ensures (forall d :: d in DeltasOf(pre, post, indexes) ==> d.owner in owners) <==>
      forall i :: i in indexes && Moves(pre, post, i) ==> OwnerOf(pre, post, i).value in owners
  {
    if indexes == [] {
    } else {
      var front, i := Front(indexes), Last(indexes);
      DeltaOwners(pre, post, front, owners);
      assert indexes == front + [i];
      if Moves(pre, post, i) {
        var d := Delta(i, OwnerOf(pre, post, i).value, AmountIn(pre, i), AmountIn(post, i));
        assert DeltasOf(pre, post, indexes) == DeltasOf(pre, post, front) + [d];
      } else {
        assert DeltasOf(pre, post, indexes) == DeltasOf(pre, post, front) + [];
      }
    }
  }

  /** The listed USDC balances show a transfer of `amount` from payer to payee and nothing else. */
  ghost predicate IsTransfer(pre: seq<Balance>, post: seq<Balance>, payer: string, payee: string, amount: int) {
    var before, after := Indexed(pre), Indexed(post);
    && OthersUntouched(before, after, payer, payee)
    && Held(post, Accounts(before, after, Some(payer))) == Held(pre, Accounts(before, after, Some(payer))) - amount
    && Held(post, Accounts(before, after, Some(payee))) == Held(pre, Accounts(before, after, Some(payee))) + amount
  }

  /** The verifier accepts exactly well-formed balance lists that show such a transfer. */
  lemma VerdictIsExact(pre: seq<Balance>, post: seq<Balance>, accountKeys: nat, payer: string, payee: string,
      amount: int)
    ensures Verdict(pre, post, accountKeys, payer, payee, amount).Ok? <==>
      && amount > 0 && payer != payee && DistinctIndexes(pre) && DistinctIndexes(post)
      && (forall i :: i in Indexed(pre).Keys + Indexed(post).Keys ==>
        AccountFine(Indexed(pre), Indexed(post), accountKeys, i))
      && IsTransfer(pre, post, payer, payee, amount)
  {
    hide Indexed, DeltasOf, AccountFine, AllIndexes, DistinctIndexes, SumOf, Balanced, Accounts, Held, NoRepeats,
      OthersUntouched;
    var before, after, all := Indexed(pre), Indexed(post), AllIndexes(pre, post);
    if amount > 0 && payer != payee && DistinctIndexes(pre) && DistinctIndexes(post) {
      AllIndexesMeans(pre, post);
      if forall i :: i in all ==> AccountFine(before, after, accountKeys, i) {
        LastGuardsNeverFire(DeltasOf(before, after, all), payer, payee, amount);
        SumsAreDifferences(pre, post, accountKeys, Some(payer));
        SumsAreDifferences(pre, post, accountKeys, Some(payee));
        OwnersAreTwo(before, after, accountKeys, all, payer, payee);
      }
    }
  }

  lemma OwnersAreTwo(pre: Snapshot, post: Snapshot, accountKeys: nat, all: seq<nat>, payer: string, payee: string)
    requires forall i :: i in all <==> i in pre.Keys + post.Keys
    requires forall i :: i in all ==> AccountFine(pre, post, accountKeys, i)
    ensures (forall d :: d in DeltasOf(pre, post, all) ==> d.owner == payer || d.owner == payee) <==>
      OthersUntouched(pre, post, payer, payee)
  {
    hide DeltasOf;
    DeltaOwners(pre, post, all, {payer, payee});
    assert forall i :: i in all && IsUsdc(pre, post, i) ==> OwnerOf(pre, post, i).Some?;
    assert forall i :: i in Accounts(pre, post, None) <==> i in all && IsUsdc(pre, post, i);
  }

  /** A verified settlement conserves USDC over all listed accounts. */
  lemma VerifiedConserves(pre: seq<Balance>, post: seq<Balance>, accountKeys: nat, payer: string, payee: string,
      amount: int)
    requires Verdict(pre, post, accountKeys, payer, payee, amount).Ok?
    ensures
      var all := Accounts(Indexed(pre), Indexed(post), None);
      Held(post, all) == Held(pre, all)
  {
    hide Indexed, DeltasOf, AccountFine, AllIndexes, DistinctIndexes, SumOf, Accounts, Held;
    SumsAreDifferences(pre, post, accountKeys, None);
  }
}
