/** A user's balances and the funds locked for orders. */
module Users {
  import opened Types

  datatype LockEntry = LockEntry(asset: Asset, amount: Quantity)

  /** The account's value. Balances include what is locked. */
  datatype Account = Account(locks: map<OrderId, LockEntry>, balances: map<Asset, Quantity>)
  {
    function Balance(asset: Asset): Quantity {
      if asset in balances then balances[asset] else 0
    }
  }

  const EMPTY_ACCOUNT := Account(map[], map[])

  // ---- Sums over locks ----

  function Share(e: LockEntry, asset: Asset): nat {
    if e.asset == asset then e.amount else 0
  }

  /** The total locked in `asset`, over the locks in any order. */
  ghost function LockedSum(locks: map<OrderId, LockEntry>, asset: Asset): nat
    decreases |locks|
  {
    if locks == map[] then 0 else var id :| id in locks; Share(locks[id], asset) + LockedSum(locks - {id}, asset)
  }

  lemma {:induction false} LockedSumAny(locks: map<OrderId, LockEntry>, id: OrderId, asset: Asset)
    requires id in locks
    ensures LockedSum(locks, asset) == Share(locks[id], asset) + LockedSum(locks - {id}, asset)
    decreases |locks|
  {
    var first :| first in locks
      && LockedSum(locks, asset) == Share(locks[first], asset) + LockedSum(locks - {first}, asset);
    if first != id {
      LockedSumAny(locks - {first}, id, asset);
      LockedSumAny(locks - {id}, first, asset);
      assert locks - {first} - {id} == locks - {id} - {first};
    }
  }

  lemma {:induction false} LockedSumPut(locks: map<OrderId, LockEntry>, id: OrderId, e: LockEntry, asset: Asset)
    ensures LockedSum(locks[id := e], asset) == Share(e, asset) + LockedSum(locks - {id}, asset)
    ensures LockedSum(locks, asset)
            == (if id in locks then Share(locks[id], asset) else 0) + LockedSum(locks - {id}, asset)
  {
    LockedSumAny(locks[id := e], id, asset);
    assert locks[id := e] - {id} == locks - {id};
    if id in locks {
      LockedSumAny(locks, id, asset);
    } else {
      assert locks - {id} == locks;
    }
  }

  lemma {:induction false} LockedSumMinus(locks: map<OrderId, LockEntry>, ids: set<OrderId>, asset: Asset)
    ensures LockedSum(locks - ids, asset) <= LockedSum(locks, asset)
    decreases |locks|
  {
    hide Share, LockedSum;
    if id :| id in ids && id in locks {
      LockedSumAny(locks, id, asset);
      LockedSumMinus(locks - {id}, ids, asset);
      assert locks - {id} - ids == locks - ids;
    } else {
      assert locks - ids == locks;
    }
  }

  // ---- The operations as functions ----

  /** Balance less the clamped sum of locks, never below zero. */
  ghost function Available(a: Account, asset: Asset): Quantity {
    var locked := Clamped(LockedSum(a.locks, asset));
    if locked <= a.Balance(asset) then a.Balance(asset) - locked else 0
  }

  ghost function LockedFor(a: Account, id: OrderId, asset: Asset, amount: Quantity): Option<Account> {
    if Available(a, asset) < amount then None else Some(a.(locks := a.locks[id := LockEntry(asset, amount)]))
  }

  function Unlocked(a: Account, id: OrderId): Account {
    a.(locks := a.locks - {id})
  }

  function Deposited(a: Account, asset: Asset, amount: Quantity): Option<Account> {
    if a.Balance(asset) + amount > U32_MAX then None
    else Some(a.(balances := a.balances[asset := a.Balance(asset) + amount]))
  }

  ghost function Withdrawn(a: Account, asset: Asset, amount: Quantity): Option<Account> {
    if Available(a, asset) < amount then None
    else Some(a.(balances := a.balances[asset := a.Balance(asset) - amount]))
  }

  datatype FillError = NotLocked | AssetMismatch | LockTooSmall | CreditOverflow

  /** The account after a fill, and what went wrong with it. */
  datatype FillResult = FillResult(account: Account, error: Option<FillError>)

  /** Shrinks the lock by the debit and credits the other asset. The debited balance is left alone. */
  function AfterFill(a: Account, id: OrderId, debitAsset: Asset, debit: Quantity, creditAsset: Asset,
                     credit: Quantity): FillResult {
    if id !in a.locks then FillResult(a, Some(NotLocked))
    else if a.locks[id].asset != debitAsset then FillResult(a, Some(AssetMismatch))
    else if a.locks[id].amount < debit then FillResult(a, Some(LockTooSmall))
    else
      var left := a.locks[id].amount - debit;
      var a' := a.(locks := if left == 0 then a.locks - {id} else a.locks[id := LockEntry(debitAsset, left)]);
      if a'.Balance(creditAsset) + credit > U32_MAX then FillResult(a', Some(CreditOverflow))
      else FillResult(a'.(balances := a'.balances[creditAsset := a'.Balance(creditAsset) + credit]), None)
  }

  lemma {:induction false} NoFill(a: Account, id: OrderId, debitAsset: Asset, debit: Quantity, creditAsset: Asset,
                                  credit: Quantity)
    ensures var r := AfterFill(a, id, debitAsset, debit, creditAsset, credit);
            && (id !in a.locks ==> r == FillResult(a, Some(NotLocked)))
            && (id in a.locks && a.locks[id].asset != debitAsset ==> r == FillResult(a, Some(AssetMismatch)))
            && (id in a.locks && a.locks[id].asset == debitAsset && a.locks[id].amount < debit ==>
                   r == FillResult(a, Some(LockTooSmall)))
  {
  }

  lemma {:induction false} FillOutcome(a: Account, id: OrderId, debitAsset: Asset, debit: Quantity,
                                       creditAsset: Asset, credit: Quantity)
    requires id in a.locks && a.locks[id].asset == debitAsset && a.locks[id].amount >= debit
    ensures var left := a.locks[id].amount - debit;
            var rest := if left == 0 then a.locks - {id} else a.locks[id := LockEntry(debitAsset, left)];
            var total := (if creditAsset in a.balances then a.balances[creditAsset] else 0) + credit;
            AfterFill(a, id, debitAsset, debit, creditAsset, credit)
            == if total > U32_MAX then FillResult(Account(rest, a.balances), Some(CreditOverflow))
               else FillResult(Account(rest, a.balances[creditAsset := total]), None)
  {
  }

  // ---- Solvency ----

  /** Locks are covered by the balance, asset by asset. */
  ghost predicate Solvent(a: Account) {
    forall asset :: LockedSum(a.locks, asset) <= a.Balance(asset)
  }

  /** In a solvent account neither the clamp nor the saturating subtraction ever acts. */
  lemma {:induction false} SolventAvailable(a: Account, asset: Asset)
    requires Solvent(a)
    ensures Available(a, asset) == a.Balance(asset) - LockedSum(a.locks, asset)
  {
  }

  /** Locking succeeds exactly when the amount is free. An older lock under the id is replaced. */
  lemma {:induction false} RelockLaw(a: Account, id: OrderId, asset: Asset, amount: Quantity)
    requires Solvent(a)
    ensures var r := LockedFor(a, id, asset, amount);
            && (r.Some? <==> amount <= a.Balance(asset) - LockedSum(a.locks, asset))
            && (r.Some? ==>
                  && Solvent(r.value) && r.value.balances == a.balances
                  && r.value.locks.Keys == a.locks.Keys + {id}
                  && forall i :: i in r.value.locks ==>
                       r.value.locks[i] == if i == id then LockEntry(asset, amount) else a.locks[i])
  {
    hide LockedSum;
    var r := LockedFor(a, id, asset, amount);
    SolventAvailable(a, asset);
    if r.Some? {
      forall x: Asset
        ensures LockedSum(r.value.locks, x) <= r.value.Balance(x)
      {
        LockedSumPut(a.locks, id, LockEntry(asset, amount), x);
        assert LockedSum(a.locks, x) <= a.Balance(x);
      }
    }
  }

  /** Locking under an id without a lock reserves exactly the amount, and keeps the account solvent. */
  lemma {:induction false} LockLaw(a: Account, id: OrderId, asset: Asset, amount: Quantity)
    requires Solvent(a) && id !in a.locks
    ensures var r := LockedFor(a, id, asset, amount);
            && (r.Some? <==> amount <= a.Balance(asset) - LockedSum(a.locks, asset))
            && (r.Some? ==> Solvent(r.value) && Unlocked(r.value, id) == a
                            && Available(r.value, asset) == Available(a, asset) - amount)
  {
    var r := LockedFor(a, id, asset, amount);
    SolventAvailable(a, asset);
    if r.Some? {
      assert r.value.locks - {id} == a.locks == a.locks - {id};
      forall x: Asset
        ensures LockedSum(r.value.locks, x) == LockedSum(a.locks, x) + (if x == asset then amount else 0)
        ensures LockedSum(r.value.locks, x) <= r.value.Balance(x)
      {
        LockedSumPut(a.locks, id, LockEntry(asset, amount), x);
        assert LockedSum(a.locks, x) <= a.Balance(x);
      }
      assert Solvent(r.value);
    }
  }

  /** Releasing a lock gives back exactly what it held. */
  lemma {:induction false} UnlockLaw(a: Account, id: OrderId)
    requires Solvent(a)
    ensures Solvent(Unlocked(a, id))
    ensures forall asset :: LockedSum(Unlocked(a, id).locks, asset)
                         == LockedSum(a.locks, asset) - (if id in a.locks then Share(a.locks[id], asset) else 0)
  {
    forall asset
      ensures LockedSum(Unlocked(a, id).locks, asset)
           == LockedSum(a.locks, asset) - (if id in a.locks then Share(a.locks[id], asset) else 0)
    {
      LockedSumPut(a.locks, id, LockEntry(asset, 0), asset);
    }
  }

  /** A fill that succeeds takes the debit out of the lock, adds the credit to the balance and changes nothing else. */
  lemma {:induction false} FillLaw(a: Account, id: OrderId, debitAsset: Asset, debit: Quantity, creditAsset: Asset,
                                   credit: Quantity)
    requires Solvent(a)
    ensures var r := AfterFill(a, id, debitAsset, debit, creditAsset, credit);
            && Solvent(r.account)
            && (r.error == None ==>
                  && (forall asset :: r.account.Balance(asset)
                       == a.Balance(asset) + (if asset == creditAsset then credit else 0))
                  && (forall asset :: LockedSum(r.account.locks, asset)
                                      == LockedSum(a.locks, asset) - (if asset == debitAsset then debit else 0)))
  {
    var r := AfterFill(a, id, debitAsset, debit, creditAsset, credit);
    if id in a.locks && a.locks[id].asset == debitAsset && a.locks[id].amount >= debit {
      forall x: Asset
        ensures LockedSum(r.account.locks, x) == LockedSum(a.locks, x) - (if x == debitAsset then debit else 0)
        ensures LockedSum(r.account.locks, x) <= r.account.Balance(x)
      {
        LockedSumPut(a.locks, id, LockEntry(debitAsset, a.locks[id].amount - debit), x);
        assert LockedSum(a.locks, x) <= a.Balance(x) <= r.account.Balance(x);
      }
      assert Solvent(r.account);
    }
  }

  // ---- The account ----

  class User {
    var lockedOrders: map<OrderId, LockEntry>
    var balances: map<Asset, Quantity>

    function Value(): Account
      reads this
    {
      Account(lockedOrders, balances)
    }

    constructor ()
      ensures Value() == EMPTY_ACCOUNT
    {
      lockedOrders, balances := map[], map[];
    }

    /** Total locked in an asset, clamped. */
    method GetLockedBalance(asset: Asset) returns (locked: Quantity)
      ensures locked == Clamped(LockedSum(lockedOrders, asset))
    {
      var sum: nat, rest := 0, lockedOrders;
      while rest != map[]
        invariant sum + LockedSum(rest, asset) == LockedSum(lockedOrders, asset)
        decreases |rest|
      {
        var id :| id in rest;
        LockedSumAny(rest, id, asset);
        sum := sum + Share(rest[id], asset);
        rest := rest - {id};
      }
      locked := Clamped(sum);
    }

    method GetAvailableBalance(asset: Asset) returns (available: Quantity)
      ensures available == Available(Value(), asset)
    {
      var total := Value().Balance(asset);
      var locked := GetLockedBalance(asset);
      available := if locked <= total then total - locked else 0;
    }

    method Lock(id: OrderId, asset: Asset, amount: Quantity) returns (ok: bool)
      modifies this
      ensures ok <==> LockedFor(old(Value()), id, asset, amount).Some?
      ensures Value() == if ok then LockedFor(old(Value()), id, asset, amount).value else old(Value())
    {
      var available := GetAvailableBalance(asset);
      ok := available >= amount;
      if ok {
        lockedOrders := lockedOrders[id := LockEntry(asset, amount)];
      }
    }

    method UnlockOrder(id: OrderId) returns (ok: bool)
      modifies this
      ensures ok <==> id in old(lockedOrders)
      ensures Value() == Unlocked(old(Value()), id)
    {
      ok := id in lockedOrders;
      lockedOrders := lockedOrders - {id};
    }

    method ApplyFill(id: OrderId, debitAsset: Asset, debit: Quantity, creditAsset: Asset, credit: Quantity)
      returns (error: Option<FillError>)
      modifies this
      ensures FillResult(Value(), error) == AfterFill(old(Value()), id, debitAsset, debit, creditAsset, credit)
    {
      hide AfterFill;
      NoFill(Value(), id, debitAsset, debit, creditAsset, credit);
      if id !in lockedOrders {
        return Some(NotLocked);
      }
      var entry := lockedOrders[id];
      if entry.asset != debitAsset {
        return Some(AssetMismatch);
      }
      if entry.amount < debit {
        return Some(LockTooSmall);
      }
      var left := entry.amount - debit;
      var rest := if left == 0 then lockedOrders - {id} else lockedOrders[id := LockEntry(entry.asset, left)];
      lockedOrders := rest;
      var credited := if creditAsset in balances then balances[creditAsset] else 0;
      FillOutcome(old(Value()), id, debitAsset, debit, creditAsset, credit);
      if credited + credit > U32_MAX {
        return Some(CreditOverflow);
      }
      balances := balances[creditAsset := credited + credit];
      error := None;
    }

    method AddBalance(asset: Asset, amount: Quantity) returns (ok: bool)
      modifies this
      ensures ok <==> Deposited(old(Value()), asset, amount).Some?
      ensures Value() == if ok then Deposited(old(Value()), asset, amount).value else old(Value())
    {
      var current := if asset in balances then balances[asset] else 0;
      ok := current + amount <= U32_MAX;
      if ok {
        balances := balances[asset := current + amount];
      }
    }

    method SubtractBalance(asset: Asset, amount: Quantity) returns (ok: bool)
      modifies this
      ensures ok <==> Withdrawn(old(Value()), asset, amount).Some?
      ensures Value() == if ok then Withdrawn(old(Value()), asset, amount).value else old(Value())
    {
      var available := GetAvailableBalance(asset);
      ok := available >= amount;
      if ok {
        var current := if asset in balances then balances[asset] else 0;
        balances := balances[asset := current - amount];
      }
    }
  }
}
