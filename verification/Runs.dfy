/** Whole runs of the engine: commands, replies, and what holds in every reachable state. */
module Runs {
  import opened Types
  import opened Levels
  import opened Soundness
  import opened OrderBooks
  import opened Users
  import opened Engine
  import opened Settlement
  import opened EngineLaws

  /** The commands of the log. */
  datatype Command =
    | AddPair(pair: TradingPair)
    | RemovePair(pair: TradingPair)
    | PlaceOrder(pair: TradingPair, order: Order)
    | Cancelling(pair: TradingPair, id: OrderId)
    | Modifying(pair: TradingPair, change: OrderModify)
    | NewUser(user: UserId)
    | DropUser(user: UserId)
    | Deposit(user: UserId, asset: Asset, quantity: Quantity)
    | Withdrawal(user: UserId, asset: Asset, quantity: Quantity)

  datatype Reply =
    | Acknowledged
    | PairRemoved(found: bool)
    | OrderPlaced(placed: Placed)
    | OrderCancelled(success: bool)
    | UserAnswer(error: Option<UserError>)
    | FinalBalances(balances: Option<map<Asset, Quantity>>)
  {
    predicate Faulty() {
      OrderPlaced? && placed.Panicked?
    }
  }

  /** One command; `now` is the clock reading a modify stamps its replacement with. */
  ghost function Exec(s: State, c: Command, now: Timestamp): (State, Reply) {
    match c
    case AddPair(pair) => (AddTradingPair(s, pair), Acknowledged)
    case RemovePair(pair) => (RemoveTradingPair(s, pair), PairRemoved(pair in s.books))
    case PlaceOrder(pair, order) => var (s', r) := AddOrder(s, pair, order); (s', OrderPlaced(r))
    case Cancelling(pair, id) => var (s', ok) := CancelOrder(s, pair, id); (s', OrderCancelled(ok))
    case Modifying(pair, m) => var (s', r) := ModifyOrder(s, pair, m, now); (s', OrderPlaced(r))
    case NewUser(user) => (AddUser(s, user), Acknowledged)
    case DropUser(user) =>
      (RemoveUser(s, user), FinalBalances(if user in s.users then Some(s.users[user].balances) else None))
    case Deposit(user, asset, quantity) => var (s', e) := DepositBalance(s, user, asset, quantity); (s', UserAnswer(e))
    case Withdrawal(user, asset, quantity) =>
      var (s', e) := WithdrawBalance(s, user, asset, quantity); (s', UserAnswer(e))
  }

  /** A removal tells whether there was anything to remove: a pair's is found exactly when the books change, and a
      user's last balances are told exactly when the user was there. */
  lemma {:induction false} RemovalReplies(s: State, c: Command, now: Timestamp)
    ensures var (s', r) := Exec(s, c, now);
            && (c.RemovePair? ==> r == PairRemoved(s'.books != s.books))
            && (c.DropUser? && s'.users != s.users ==>
                  c.user in s.users && r == FinalBalances(Some(s.users[c.user].balances)))
            && (c.DropUser? && s'.users == s.users ==> c.user !in s.users && r == FinalBalances(None))
  {
    hide CancelUser;
    match c
    case RemovePair(pair) =>
      if pair in s.books {
        assert pair !in RemoveTradingPair(s, pair).books;
      }
    case DropUser(user) =>
      if user in s.users {
        assert user !in RemoveUser(s, user).users;
      } else {
        assert s.users - {user} == s.users;
      }
    case _ =>
  }

  /** What is on record for ids that someone has a lock under. */
  ghost function StillHeld(g: Gains, users: map<UserId, Account>): Gains {
    map id | id in g && (exists u :: u in users && id in users[u].locks) :: g[id]
  }

  /** The price improvement on record after a command that led to `s'`; with a removed pair or user its locks are
      forgotten. */
  ghost function NextGains(g: Gains, c: Command, r: Reply, s': State): Gains {
    match c
    case RemovePair(_) => StillHeld(g, s'.users)
    case DropUser(_) => StillHeld(g, s'.users)
    case PlaceOrder(_, o) => if r.OrderPlaced? then ExecGains(g, o, r.placed) else g
    case Modifying(_, m) => if r.OrderPlaced? && r.placed.Traded? then GainAll(g - {m.id}, r.placed.matches) else g
    case Cancelling(_, id) => if r == OrderCancelled(true) then g - {id} else g
    case _ => g
  }

  /** A new order is made by `Order::new` under an id above all ids given out before. */
  predicate Admissible(c: Command, last: int) {
    c.PlaceOrder? ==> AsNew(c.order) && c.order.id > last
  }

  function NextLast(c: Command, last: int): int {
    if c.PlaceOrder? && c.order.id > last then c.order.id else last
  }

  ghost predicate UnusedAbove(s: State, g: Gains, last: int) {
    forall id: OrderId :: id > last ==> Fresh(s, g, id)
  }

  // ---- Unused ids stay unused ----

  lemma {:induction false} ExecuteKeepsFresh(s: State, g: Gains, pair: TradingPair, o: Order, id: OrderId)
    requires Inv(s, g, Entering(pair, o)) && o.remaining > 0 && Fresh(s, g, id) && id != o.id
    requires ExecuteOn(s, pair, o).1.Traded?
    ensures var (s', r) := ExecuteOn(s, pair, o); Fresh(s', ExecGains(g, o, r), id)
  {
    hide Add, Settle, GainAll, BookInv, LiveSomewhere, AllSolvent, LocksKnown, BooksApart, UniqueIds, LevelsOk,
      LegalRun, Settling, After, Backed, OwnLocks, OnlyGainsLeft, Sane, SameLock;
    var (book, r) := Add(s.books[pair], o);
    var live := s.books[pair].Orders() + {o};
    var discarded := ExecuteSettles(s, g, pair, o);
    var users := Settle(s.users, pair, r.value).users;
    PendingBook(s, g, pair, o);
    assert id !in Ids(live) by {
      assert Ids(s.books[pair].Orders()) == s.books[pair].index.Keys;
    }
    GainsOutside(g, r.value, live, id);
    RunKeepsUnique(live, r.value);
    assert Ids(book.Orders()) <= Ids(After(live, r.value));
    assert book.index.Keys == Ids(book.Orders());
    assert forall u :: u in users ==> users[u].locks.Keys <= s.users[u].locks.Keys;
  }

  lemma {:induction false} AddOrderKeepsFresh(s: State, g: Gains, pair: TradingPair, o: Order, id: OrderId)
    requires Inv(s, g, Nothing) && Fresh(s, g, o.id) && AsNew(o) && Fresh(s, g, id) && id != o.id
    ensures var (s', r) := AddOrder(s, pair, o); r.Traded? ==> Fresh(s', ExecGains(g, o, r), id)
  {
    hide Inv, ExecuteOn, LockedFor, ExecGains, Gain;
    if AddOrder(s, pair, o).1.Traded? {
      var locked := LockedFor(s.users[o.user], o.id, LockAsset(pair, o.side),
            LockAmount(o.side, o.price, o.initial).value);
      var s1 := s.(users := s.users[o.user := locked.value]);
      LockStep(s, g, pair, o, locked.value);
      LockKeepsFresh(s, g, pair, o, locked.value, id);
      ExecuteKeepsFresh(s1, g, pair, o, id);
    }
  }

  lemma {:induction false} LockKeepsFresh(s: State, g: Gains, pair: TradingPair, o: Order, a: Account, id: OrderId)
    requires Locking(s, g, pair, o, a) && Fresh(s, g, id) && id != o.id
    ensures Fresh(s.(users := s.users[o.user := a]), g, id)
  {
  }

  lemma {:induction false} CancelKeepsFresh(s: State, g: Gains, pair: TradingPair, id: OrderId, other: OrderId)
    requires Fresh(s, g, other)
    ensures var (s', ok) := CancelOrder(s, pair, id); Fresh(s', if ok then g - {id} else g, other)
  {
  }

  lemma {:induction false} ModifyKeepsFresh(s: State, g: Gains, pair: TradingPair, m: OrderModify, now: Timestamp,
                                            id: OrderId)
    requires Inv(s, g, Nothing) && Fresh(s, g, id)
    ensures var (s', r) := ModifyOrder(s, pair, m, now); r.Traded? ==> Fresh(s', GainAll(g - {m.id}, r.matches), id)
  {
    hide Inv, AddOrder, CancelOrder, ModifyOrder;
    if ModifyRefused(s, pair, m) == None {
      var o, s1 := Replacement(s.books[pair].index[m.id], m, now), CancelOrder(s, pair, m.id).0;
      ModifyIsCancelThenAdd(s, g, pair, m, now);
      CancelOrderLaw(s, g, pair, m.id);
      CancelKeepsFresh(s, g, pair, m.id, id);
      AddOrderKeepsFresh(s1, g - {m.id}, pair, o, id);
    } else {
      ModifyOrderLaw(s, g, pair, m, now);
    }
  }

  /** What every reachable state satisfies, with the improvement on record and the last id given out. */
  ghost predicate Reachable(s: State, g: Gains, last: int) {
    Inv(s, g, Nothing) && UnusedAbove(s, g, last)
  }

  lemma {:induction false} ExecKeepsInv(s: State, g: Gains, last: int, c: Command, now: Timestamp)
    requires Reachable(s, g, last) && Admissible(c, last)
    ensures var (s', r) := Exec(s, c, now);
            && (r.Faulty() ==> r.placed.fault == FillFailed(CreditOverflow))
            && (!r.Faulty() ==> Inv(s', NextGains(g, c, r, s'), Nothing))
  {
    hide Inv, Fresh, AddOrder, CancelOrder, ModifyOrder, RemoveUser, RemoveTradingPair, AddTradingPair, AddUser,
      DepositBalance, WithdrawBalance, ExecGains;
    match c
    case AddPair(pair) => AddTradingPairLaw(s, g, pair);
    case RemovePair(pair) =>
      RemoveTradingPairLaw(s, g, pair);
      ForgottenInv(RemoveTradingPair(s, pair), g);
    case PlaceOrder(pair, order) =>
      AddOrderLaw(s, g, pair, order);
      NoGains(g, order);
    case Cancelling(pair, id) => CancelOrderLaw(s, g, pair, id);
    case Modifying(pair, m) => ModifyOrderLaw(s, g, pair, m, now);
    case NewUser(user) => AddUserLaw(s, g, user);
    case DropUser(user) =>
      RemoveUserLaw(s, g, user);
      ForgottenInv(RemoveUser(s, user), g);
    case Deposit(user, asset, quantity) => DepositLaw(s, g, user, asset, quantity);
    case Withdrawal(user, asset, quantity) => WithdrawLaw(s, g, user, asset, quantity);
  }

  /** What no lock stands for can be forgotten. */
  lemma {:induction false} ForgottenInv(s: State, g: Gains)
    requires Inv(s, g, Nothing)
    ensures Inv(s, StillHeld(g, s.users), Nothing)
  {
    hide UniqueIds, Book.Valid, AllSolvent, BooksApart, Sane, StillHeld;
    var g' := StillHeld(g, s.users);
    forall u, id | u in s.users && id in s.users[u].locks
      ensures Gain(g', id) == Gain(g, id)
    {
      HeldGain(g, s.users, u, id);
    }
    forall p | p in s.books
      ensures BookInv(s, g', Nothing, p)
    {
      assert BookInv(s, g, Nothing, p);
      forall o | o in Live(s, p, Nothing)
        ensures Sane(o) && Backed(s.users, p, o, g')
      {
        assert Sane(o) && Backed(s.users, p, o, g);
      }
    }
  }

  lemma {:induction false} HeldGain(g: Gains, users: map<UserId, Account>, u: UserId, id: OrderId)
    requires u in users && id in users[u].locks
    ensures Gain(StillHeld(g, users), id) == Gain(g, id)
  {
  }

  lemma {:induction false} ForgottenLess(g: Gains, users: map<UserId, Account>, id: OrderId)
    ensures Gain(StillHeld(g, users), id) <= Gain(g, id)
  {
  }

  lemma {:induction false} NoGains(g: Gains, o: Order)
    ensures forall r: Placed :: !r.Traded? ==> ExecGains(g, o, r) == g
  {
  }

  lemma {:induction false} ExecKeepsFresh(s: State, g: Gains, last: int, c: Command, now: Timestamp, id: OrderId)
    requires Reachable(s, g, last) && Admissible(c, last) && id > NextLast(c, last)
    ensures var (s', r) := Exec(s, c, now); !r.Faulty() ==> Fresh(s', NextGains(g, c, r, s'), id)
  {
    hide Inv, AddOrder, CancelOrder, ModifyOrder, ExecGains, StillHeld, LockedSum;
    assert Fresh(s, g, id);
    ForgottenLess(g, Exec(s, c, now).0.users, id);
    match c
    case PlaceOrder(pair, order) =>
      AddOrderKeepsFresh(s, g, pair, order, id);
      AddOrderLaw(s, g, pair, order);
      NoGains(g, order);
    case Cancelling(pair, i) => CancelKeepsFresh(s, g, pair, i, id);
    case Modifying(pair, m) =>
      ModifyKeepsFresh(s, g, pair, m, now, id);
      ModifyOrderLaw(s, g, pair, m, now);
    case _ =>
  }

  lemma {:induction false} ExecLaw(s: State, g: Gains, last: int, c: Command, now: Timestamp)
    requires Reachable(s, g, last) && Admissible(c, last)
    ensures var (s', r) := Exec(s, c, now);
            && (r.Faulty() ==> r.placed.fault == FillFailed(CreditOverflow))
            && (!r.Faulty() ==> Reachable(s', NextGains(g, c, r, s'), NextLast(c, last)))
  {
    hide Inv, Fresh, Exec, NextGains;
    ExecKeepsInv(s, g, last, c, now);
    var (s', r) := Exec(s, c, now);
    if !r.Faulty() {
      forall id: OrderId | id > NextLast(c, last)
        ensures Fresh(s', NextGains(g, c, r, s'), id)
      {
        ExecKeepsFresh(s, g, last, c, now, id);
      }
    }
  }

  // ---- Runs ----

  /** A run: the state, the improvement on record, the last id given out, the replies, and the panic that ended it. */
  datatype Run = Run(state: State, gains: Gains, last: int, replies: seq<Reply>, fault: Option<Engine.Fault>)

  const START := Run(NEW_ENGINE, map[], -1, [], None)

  ghost function Advance(t: Run, c: Command, now: Timestamp): Run {
    var (s', r) := Exec(t.state, c, now);
    if r.Faulty() then t.(last := NextLast(c, t.last), replies := t.replies + [r], fault := Some(r.placed.fault))
    else Run(s', NextGains(t.gains, c, r, s'), NextLast(c, t.last), t.replies + [r], None)
  }

  /** Commands one after the other, the clock read once for each, up to a panic. */
  ghost function RunAll(t: Run, cmds: seq<Command>, clock: nat -> Timestamp): Run
    decreases cmds
  {
    if cmds == [] || t.fault.Some? then t
    else RunAll(Advance(t, cmds[0], clock(|t.replies|)), cmds[1..], clock)
  }

  predicate AllAdmissible(cmds: seq<Command>, last: int)
    decreases cmds
  {
    cmds != [] ==> Admissible(cmds[0], last) && AllAdmissible(cmds[1..], NextLast(cmds[0], last))
  }

  lemma {:induction false} StartReachable()
    ensures Reachable(NEW_ENGINE, map[], -1)
  {
  }

  /** Every run keeps the invariant; the one panic of lock, match and settle a run can end in is the overflow of a
      credit. Trade ids are taken as given: on a clock that never goes back, drawing one does not panic either
      (`Snowflake.RunIncreases`). `clock` only stamps replacement orders. */
  lemma {:induction false} RunLaw(t: Run, cmds: seq<Command>, clock: nat -> Timestamp)
    requires AllAdmissible(cmds, t.last)
    requires if t.fault.Some? then t.fault == Some(FillFailed(CreditOverflow)) else Reachable(t.state, t.gains, t.last)
    ensures var t' := RunAll(t, cmds, clock);
            if t'.fault.Some? then t'.fault == Some(FillFailed(CreditOverflow))
            else Reachable(t'.state, t'.gains, t'.last)
    decreases cmds
  {
    hide Reachable, Exec, NextGains;
    if cmds != [] && t.fault == None {
      ExecLaw(t.state, t.gains, t.last, cmds[0], clock(|t.replies|));
      RunLaw(Advance(t, cmds[0], clock(|t.replies|)), cmds[1..], clock);
    }
  }

  /** The ledger in every reachable state: locks never exceed the balance, so what is available is the plain
      difference; a resting sell has exactly its remainder locked, a resting buy its remainder at the limit
      price plus the price improvement of its fills; every resting order's user exists; and a lock without a
      resting order holds price improvement. */
  lemma {:induction false} ReachableLedger(cmds: seq<Command>, clock: nat -> Timestamp)
    requires AllAdmissible(cmds, -1)
    ensures var t := RunAll(START, cmds, clock);
            var s := t.state;
            t.fault == None ==>
              && (forall u, asset :: u in s.users ==>
                    LockedSum(s.users[u].locks, asset) <= s.users[u].Balance(asset)
                    && Available(s.users[u], asset) == s.users[u].Balance(asset) - LockedSum(s.users[u].locks, asset))
              && (forall p, o :: p in s.books && o in s.books[p].Orders() ==>
                    o.user in s.users && o.id in s.users[o.user].locks
                    && s.users[o.user].locks[o.id].asset == LockAsset(p, o.side)
                    && s.users[o.user].locks[o.id].amount
                       == if o.side.Buy? then o.price * o.remaining + Gain(t.gains, o.id) else o.remaining)
              && (forall u, id :: u in s.users && id in s.users[u].locks ==>
                    (exists p :: p in s.books && id in s.books[p].index)
                      || s.users[u].locks[id].amount == Gain(t.gains, id))
  {
    hide RunAll, LockedSum;
    StartReachable();
    RunLaw(START, cmds, clock);
    var t := RunAll(START, cmds, clock);
    if t.fault == None {
      LedgerOf(t.state, t.gains);
      IndexedLocks(t.state, t.gains);
    }
  }

  lemma {:induction false} LedgerOf(s: State, g: Gains)
    requires Inv(s, g, Nothing)
    ensures forall u, asset :: u in s.users ==>
              LockedSum(s.users[u].locks, asset) <= s.users[u].Balance(asset)
              && Available(s.users[u], asset) == s.users[u].Balance(asset) - LockedSum(s.users[u].locks, asset)
    ensures forall p, o :: p in s.books && o in s.books[p].Orders() ==> Backed(s.users, p, o, g)
  {
    hide LockedSum, Backed, BooksApart, LocksKnown;
    forall u, asset: Asset | u in s.users
      ensures LockedSum(s.users[u].locks, asset) <= s.users[u].Balance(asset)
              && Available(s.users[u], asset) == s.users[u].Balance(asset) - LockedSum(s.users[u].locks, asset)
    {
      assert Solvent(s.users[u]);
      SolventAvailable(s.users[u], asset);
    }
    forall p, o | p in s.books && o in s.books[p].Orders()
      ensures Backed(s.users, p, o, g)
    {
      assert BookInv(s, g, Nothing, p);
    }
  }

  lemma {:induction false} IndexedLocks(s: State, g: Gains)
    requires Inv(s, g, Nothing)
    ensures forall u, id :: u in s.users && id in s.users[u].locks ==>
              (exists p :: p in s.books && id in s.books[p].index) || s.users[u].locks[id].amount == Gain(g, id)
  {
    hide AllSolvent, BooksApart;
    forall u, id | u in s.users && id in s.users[u].locks && s.users[u].locks[id].amount != Gain(g, id)
      ensures exists p :: p in s.books && id in s.books[p].index
    {
      assert LiveSomewhere(s, Nothing, id);
      var p :| p in s.books && id in Ids(Live(s, p, Nothing));
      BookInvValid(s, g, Nothing, p);
      LiveIds(s, p);
    }
  }
}
