/** The engine with the one line its documentation intends: a fill also takes the debit out of the balance. */
module Intended {
  import opened Types
  import opened OrderBooks
  import opened Users
  import opened Engine
  import opened Settlement
  import opened EngineLaws
  import opened Runs
  import opened Ledger

  function IntendedExecuteOn(s: State, pair: TradingPair, o: Order): (State, Placed)
    requires pair in s.books
  {
    var (book, r) := Add(s.books[pair], o);
    var s' := s.(books := s.books[pair := book]);
    match r
    case None => (s'.(users := UnlockFor(s.users, o.user, o.id)), NoTrades)
    case Some(ms) =>
      match IntendedSettle(s.users, pair, ms)
      case Fault(f) => (s, Panicked(f))
      case Settled(users) =>
        (s'.(users := if o.kind.FillAndKill? then UnlockFor(users, o.user, o.id) else users), Traded(ms))
  }

  /** The same checks and locks as the engine's own. */
  ghost function IntendedAddOrder(s: State, pair: TradingPair, o: Order): (State, Placed) {
    if AddOrder(s, pair, o).1.Rejected? then AddOrder(s, pair, o)
    else
      var a := LockedFor(s.users[o.user], o.id, LockAsset(pair, o.side),
            LockAmount(o.side, o.price, o.initial).value).value;
      IntendedExecuteOn(s.(users := s.users[o.user := a]), pair, o)
  }

  ghost function IntendedModifyOrder(s: State, pair: TradingPair, m: OrderModify, now: Timestamp): (State, Placed) {
    if ModifyOrder(s, pair, m, now).1.Rejected? then ModifyOrder(s, pair, m, now)
    else
      var before := s.books[pair].index[m.id];
      var s1 := State(s.books[pair := Cancel(s.books[pair], m.id).0], UnlockFor(s.users, before.user, m.id));
      var a := LockedFor(s1.users[before.user], m.id, LockAsset(pair, m.side),
            LockAmount(m.side, m.price, m.quantity).value).value;
      IntendedExecuteOn(s1.(users := s1.users[before.user := a]), pair, Replacement(before, m, now))
  }

  ghost function IntendedExec(s: State, c: Command, now: Timestamp): (State, Reply) {
    match c
    case PlaceOrder(pair, o) => var (s', r) := IntendedAddOrder(s, pair, o); (s', OrderPlaced(r))
    case Modifying(pair, m) => var (s', r) := IntendedModifyOrder(s, pair, m, now); (s', OrderPlaced(r))
    case _ => Exec(s, c, now)
  }

  // ---- Solvency ----

  lemma {:induction false} RelockSolvent(a: Account, id: OrderId, asset: Asset, amount: Quantity)
    requires Solvent(a) && LockedFor(a, id, asset, amount).Some?
    ensures Solvent(LockedFor(a, id, asset, amount).value)
  {
    SolventAvailable(a, asset);
    forall x: Asset
      ensures LockedSum(a.locks[id := LockEntry(asset, amount)], x) <= a.Balance(x)
    {
      LockedSumPut(a.locks, id, LockEntry(asset, amount), x);
      assert LockedSum(a.locks, x) <= a.Balance(x);
    }
  }

  lemma {:induction false} UnlockSolvent(users: map<UserId, Account>, user: UserId, id: OrderId, asset: Asset)
    requires AllSolvent(users)
    ensures AllSolvent(UnlockFor(users, user, id)) && Total(UnlockFor(users, user, id), asset) == Total(users, asset)
  {
    hide LockedSum, Solvent, Total;
    if user in users {
      UnlockLaw(users[user], id);
    }
    TotalSame(users, UnlockFor(users, user, id), asset);
  }

  lemma {:induction false} BalancesSolvent(a: Account, asset: Asset, quantity: Quantity)
    requires Solvent(a)
    ensures Deposited(a, asset, quantity).Some? ==> Solvent(Deposited(a, asset, quantity).value)
    ensures Withdrawn(a, asset, quantity).Some? ==> Solvent(Withdrawn(a, asset, quantity).value)
  {
    hide LockedSum;
    SolventAvailable(a, asset);
  }

  // ---- One command ----

  lemma {:induction false} IntendedExecuteTotal(s: State, pair: TradingPair, o: Order, asset: Asset)
    requires pair in s.books && AllSolvent(s.users) && !IntendedExecuteOn(s, pair, o).1.Panicked?
    ensures var s' := IntendedExecuteOn(s, pair, o).0;
            AllSolvent(s'.users) && Total(s'.users, asset) == Total(s.users, asset)
  {
    hide Add, IntendedSettle, Solvent, UnlockFor, Total;
    var (book, r) := Add(s.books[pair], o);
    var users := s.users;
    if r.Some? {
      IntendedConserves(s.users, pair, r.value, asset);
      users := IntendedSettle(s.users, pair, r.value).users;
    }
    UnlockSolvent(users, o.user, o.id, asset);
  }

  lemma {:induction false} IntendedAddTotal(s: State, pair: TradingPair, o: Order, asset: Asset)
    requires AllSolvent(s.users) && !IntendedAddOrder(s, pair, o).1.Panicked?
    ensures var s' := IntendedAddOrder(s, pair, o).0;
            AllSolvent(s'.users) && Total(s'.users, asset) == Total(s.users, asset)
  {
    hide ExecuteOn, IntendedExecuteOn, LockedFor, Solvent, Total;
    if !AddOrder(s, pair, o).1.Rejected? {
      var lockAsset, amount := LockAsset(pair, o.side), LockAmount(o.side, o.price, o.initial).value;
      RelockSolvent(s.users[o.user], o.id, lockAsset, amount);
      LockTotal(s.users, o.user, o.id, lockAsset, amount, asset);
      IntendedExecuteTotal(s.(users := s.users[o.user := LockedFor(s.users[o.user], o.id, lockAsset, amount).value]),
            pair, o, asset);
    }
  }

  lemma {:induction false} IntendedModifyTotal(s: State, pair: TradingPair, m: OrderModify, now: Timestamp,
                                               asset: Asset)
    requires AllSolvent(s.users) && !IntendedModifyOrder(s, pair, m, now).1.Panicked?
    ensures var s' := IntendedModifyOrder(s, pair, m, now).0;
            AllSolvent(s'.users) && Total(s'.users, asset) == Total(s.users, asset)
  {
    hide ExecuteOn, IntendedExecuteOn, LockedFor, Solvent, Total, Cancel, ValidOrder, Available;
    if ModifyRefused(s, pair, m) == None {
      var before := s.books[pair].index[m.id];
      var s1 := State(s.books[pair := Cancel(s.books[pair], m.id).0], UnlockFor(s.users, before.user, m.id));
      UnlockSolvent(s.users, before.user, m.id, asset);
      var lockAsset, amount := LockAsset(pair, m.side), LockAmount(m.side, m.price, m.quantity).value;
      var locked := LockedFor(s1.users[before.user], m.id, lockAsset, amount);
      if locked.Some? {
        RelockSolvent(s1.users[before.user], m.id, lockAsset, amount);
        LockTotal(s1.users, before.user, m.id, lockAsset, amount, asset);
        IntendedExecuteTotal(s1.(users := s1.users[before.user := locked.value]), pair, Replacement(before, m, now),
              asset);
      }
    }
  }

  lemma {:induction false} OtherCommandsSolvent(s: State, c: Command, now: Timestamp)
    requires AllSolvent(s.users) && !c.PlaceOrder? && !c.Modifying?
    ensures AllSolvent(Exec(s, c, now).0.users)
  {
    hide LockedSum, Solvent, Cancel, CancelUser, Deposited, Withdrawn, AddOrder, ModifyOrder, Total;
    match c
    case RemovePair(pair) =>
      if pair in s.books {
        forall u | u in s.users
          ensures Solvent(s.users[u].(locks := s.users[u].locks - IdsOf(s.books[pair].index, u)))
        {
          MinusSolvent(s.users[u], IdsOf(s.books[pair].index, u));
        }
      }
    case Cancelling(pair, id) =>
      if pair in s.books && Cancel(s.books[pair], id).1.Some? {
        UnlockSolvent(s.users, Cancel(s.books[pair], id).1.value.user, id, ETH);
      }
    case NewUser(user) => EmptySolvent();
    case Deposit(user, asset, quantity) =>
      if user in s.users {
        BalancesSolvent(s.users[user], asset, quantity);
      }
    case Withdrawal(user, asset, quantity) =>
      if user in s.users {
        BalancesSolvent(s.users[user], asset, quantity);
      }
    case _ =>
  }

  lemma {:induction false} IntendedExecTotal(s: State, c: Command, now: Timestamp, asset: Asset)
    requires AllSolvent(s.users) && !IntendedExec(s, c, now).1.Faulty()
    ensures var (s', r) := IntendedExec(s, c, now);
            AllSolvent(s'.users) && Total(s'.users, asset) == Total(s.users, asset) + External(c, r, asset)
  {
    hide Exec, AllSolvent, IntendedAddOrder, IntendedModifyOrder;
    match c
    case PlaceOrder(pair, o) => IntendedAddTotal(s, pair, o, asset);
    case Modifying(pair, m) => IntendedModifyTotal(s, pair, m, now, asset);
    case _ =>
      OtherCommandsSolvent(s, c, now);
      ExecTotal(s, c, now, asset);
  }

  // ---- Whole runs ----

  /** The state after the commands, or none once a command has panicked; the clock is read once for each. */
  ghost function IntendedRun(s: State, cmds: seq<Command>, clock: nat -> Timestamp): Option<State>
    decreases cmds
  {
    if cmds == [] then Some(s)
    else
      var (s', r) := IntendedExec(s, cmds[0], clock(|cmds|));
      if r.Faulty() then None else IntendedRun(s', cmds[1..], clock)
  }

  ghost function IntendedExternals(s: State, cmds: seq<Command>, clock: nat -> Timestamp, asset: Asset): int
    decreases cmds
  {
    if cmds == [] then 0
    else
      var (s', r) := IntendedExec(s, cmds[0], clock(|cmds|));
      External(cmds[0], r, asset) + (if r.Faulty() then 0 else IntendedExternals(s', cmds[1..], clock, asset))
  }

  /** Over any run of any commands, the total of an asset changes by deposits, withdrawals and the balances of
      removed users, and by nothing else. */
  lemma {:induction false} IntendedRunConserves(s: State, cmds: seq<Command>, clock: nat -> Timestamp, asset: Asset)
    requires AllSolvent(s.users) && IntendedRun(s, cmds, clock).Some?
    ensures Total(IntendedRun(s, cmds, clock).value.users, asset)
            == Total(s.users, asset) + IntendedExternals(s, cmds, clock, asset)
    decreases cmds
  {
    hide IntendedExec, External, AllSolvent;
    if cmds != [] {
      IntendedExecTotal(s, cmds[0], clock(|cmds|), asset);
      IntendedRunConserves(IntendedExec(s, cmds[0], clock(|cmds|)).0, cmds[1..], clock, asset);
    }
  }
}
