/** Running the same commands again: clocks show up in order timestamps and nowhere else. */
module Replay {
  import opened Types
  import opened OrderBooks
  import opened Users
  import opened Engine
  import opened Runs
  import opened Timeless

  function UntimedState(s: State): State {
    s.(books := map p | p in s.books :: UntimedBook(s.books[p]))
  }

  /** The same books, users, balances and locks; only timestamps of orders may differ. */
  predicate Alike(s: State, t: State) {
    UntimedState(s) == UntimedState(t)
  }

  function UntimedCommand(c: Command): Command {
    if c.PlaceOrder? then c.(order := Untimed(c.order)) else c
  }

  function UntimedPlaced(r: Placed): Placed {
    if r.Traded? then Traded(UntimedMatches(r.matches)) else r
  }

  function UntimedReply(r: Reply): Reply {
    if r.OrderPlaced? then OrderPlaced(UntimedPlaced(r.placed)) else r
  }

  // ---- Settlement reads no timestamps ----

  lemma {:induction false} UntimedSettle(users: map<UserId, Account>, pair: TradingPair, ms: seq<Match>)
    ensures Settle(users, pair, UntimedMatches(ms)) == Settle(users, pair, ms)
    decreases ms
  {
    hide SettleOne;
    if ms != [] {
      var r := SettleOne(users, pair, ms[0].BidInfo(), ms[0].AskInfo());
      assert UntimedMatches(ms)[1..] == UntimedMatches(ms[1..]);
      if r.Settled? {
        UntimedSettle(r.users, pair, ms[1..]);
      }
    }
  }

  // ---- Erasing timestamps commutes with every command ----

  lemma {:induction false} UntimedPutBook(s: State, p: TradingPair, b: Book)
    ensures UntimedState(s.(books := s.books[p := b]))
            == UntimedState(s).(books := UntimedState(s).books[p := UntimedBook(b)])
  {
    hide UntimedBook;
  }

  lemma {:induction false} UntimedGet(s: State, p: TradingPair)
    requires p in s.books
    ensures p in UntimedState(s).books && UntimedState(s).books[p] == UntimedBook(s.books[p])
  {
  }

  lemma {:induction false} UntimedUsers(s: State, users: map<UserId, Account>)
    ensures UntimedState(s.(users := users)) == UntimedState(s).(users := users)
  {
  }

  lemma {:induction false} UntimedExecute(s: State, pair: TradingPair, o: Order)
    requires pair in s.books
    ensures pair in UntimedState(s).books
    ensures var (s', r) := ExecuteOn(s, pair, o);
            ExecuteOn(UntimedState(s), pair, Untimed(o)) == (UntimedState(s'), UntimedPlaced(r))
  {
    hide Add, Settle, UntimedBook, UntimedMatches;
    UntimedGet(s, pair);
    UntimedAdd(s.books[pair], o);
    var (book, r) := Add(s.books[pair], o);
    UntimedPutBook(s, pair, book);
    if r.Some? {
      UntimedSettle(s.users, pair, r.value);
    }
  }

  lemma {:induction false} UntimedAddOrder(s: State, pair: TradingPair, o: Order)
    ensures var (s', r) := AddOrder(s, pair, o);
            AddOrder(UntimedState(s), pair, Untimed(o)) == (UntimedState(s'), UntimedPlaced(r))
  {
    hide ExecuteOn, LockedFor, ValidOrder;
    if pair in s.books {
      UntimedGet(s, pair);
      if o.user in s.users {
        var locked := LockedFor(s.users[o.user], o.id, LockAsset(pair, o.side),
                                if LockAmount(o.side, o.price, o.initial) == None then 0
                                else LockAmount(o.side, o.price, o.initial).value);
        if locked.Some? {
          var s1 := s.(users := s.users[o.user := locked.value]);
          UntimedUsers(s, s1.users);
          UntimedExecute(s1, pair, o);
        }
      }
    }
  }

  lemma {:induction false} UntimedCancelOrder(s: State, pair: TradingPair, id: OrderId)
    ensures var (s', ok) := CancelOrder(s, pair, id); CancelOrder(UntimedState(s), pair, id) == (UntimedState(s'), ok)
  {
    hide Cancel, UntimedBook;
    if pair in s.books {
      UntimedGet(s, pair);
      UntimedCancel(s.books[pair], id);
      UntimedPutBook(s, pair, Cancel(s.books[pair], id).0);
    }
  }

  lemma {:induction false} UntimedRefused(s: State, pair: TradingPair, m: OrderModify)
    ensures ModifyRefused(UntimedState(s), pair, m) == ModifyRefused(s, pair, m)
    ensures ModifyRefused(s, pair, m) == None ==>
              && pair in s.books && m.id in s.books[pair].index
              && pair in UntimedState(s).books && m.id in UntimedState(s).books[pair].index
              && UntimedState(s).books[pair].index[m.id] == Untimed(s.books[pair].index[m.id])
  {
    hide Available, ValidOrder;
    if pair in s.books {
      UntimedGet(s, pair);
    }
  }

  lemma {:induction false} UntimedModifyOrder(s: State, pair: TradingPair, m: OrderModify, now: Timestamp)
    ensures var (s', r) := ModifyOrder(s, pair, m, now);
            ModifyOrder(UntimedState(s), pair, m, 0) == (UntimedState(s'), UntimedPlaced(r))
  {
    hide ExecuteOn, LockedFor, ModifyRefused, Cancel, UntimedBook;
    UntimedRefused(s, pair, m);
    if ModifyRefused(s, pair, m) == None {
      var before := s.books[pair].index[m.id];
      UntimedGet(s, pair);
      UntimedCancel(s.books[pair], m.id);
      var book := Cancel(s.books[pair], m.id).0;
      UntimedPutBook(s, pair, book);
      var s1 := State(s.books[pair := book], UnlockFor(s.users, before.user, m.id));
      UntimedUsers(s.(books := s1.books), s1.users);
      UserKnown(s, pair, m);
      var locked := LockedFor(s1.users[before.user], m.id, LockAsset(pair, m.side),
            LockAmount(m.side, m.price, m.quantity).value);
      if locked.Some? {
        var s2 := s1.(users := s1.users[before.user := locked.value]);
        UntimedUsers(s1, s2.users);
        UntimedExecute(s2, pair, Replacement(before, m, now));
      }
    }
  }

  lemma {:induction false} UserKnown(s: State, pair: TradingPair, m: OrderModify)
    requires ModifyRefused(s, pair, m) == None
    ensures LockAmount(m.side, m.price, m.quantity).Some?
    ensures pair in s.books && m.id in s.books[pair].index && s.books[pair].index[m.id].user in s.users
  {
    hide Available, ValidOrder;
  }

  lemma {:induction false} UntimedAddPair(s: State, pair: TradingPair)
    ensures AddTradingPair(UntimedState(s), pair) == UntimedState(AddTradingPair(s, pair))
  {
    hide UntimedBook;
    assert UntimedBook(EMPTY_BOOK) == EMPTY_BOOK by {
      NoBook();
    }
    UntimedPutBook(s, pair, EMPTY_BOOK);
  }

  lemma {:induction false} NoBook()
    ensures UntimedBook(EMPTY_BOOK) == EMPTY_BOOK
  {
  }

  lemma {:induction false} UntimedRemovePair(s: State, pair: TradingPair)
    ensures RemoveTradingPair(UntimedState(s), pair) == UntimedState(RemoveTradingPair(s, pair))
  {
    hide UntimedBook, IdsOf;
    if pair in s.books {
      forall u: UserId
        ensures IdsOf(UntimedBook(s.books[pair]).index, u) == IdsOf(s.books[pair].index, u)
      {
        UntimedIds(s.books[pair], u);
      }
    }
  }

  lemma {:induction false} UntimedIds(b: Book, u: UserId)
    ensures IdsOf(UntimedBook(b).index, u) == IdsOf(b.index, u)
  {
  }

  lemma {:induction false} UntimedRemoveUser(s: State, user: UserId)
    ensures RemoveUser(UntimedState(s), user) == UntimedState(RemoveUser(s, user))
  {
    hide CancelUser, UntimedBook;
    forall p | p in s.books
      ensures CancelUser(UntimedBook(s.books[p]), user) == UntimedBook(CancelUser(s.books[p], user))
    {
      UntimedCancelUser(s.books[p], user);
    }
  }

  lemma {:induction false} UntimedAccounts(s: State, user: UserId, asset: Asset, quantity: Quantity)
    ensures var (s', e) := DepositBalance(s, user, asset, quantity);
            DepositBalance(UntimedState(s), user, asset, quantity) == (UntimedState(s'), e)
    ensures var (s', e) := WithdrawBalance(s, user, asset, quantity);
            WithdrawBalance(UntimedState(s), user, asset, quantity) == (UntimedState(s'), e)
    ensures AddUser(UntimedState(s), user) == UntimedState(AddUser(s, user))
  {
    hide Deposited, Withdrawn;
  }

  /** Whatever the clock reads, a command does to the erased state what it does to the state. */
  lemma {:induction false} ExecUntimed(s: State, c: Command, now: Timestamp)
    ensures var (s', r) := Exec(s, c, now);
            Exec(UntimedState(s), UntimedCommand(c), 0) == (UntimedState(s'), UntimedReply(r))
  {
    hide AddOrder, CancelOrder, ModifyOrder, RemoveUser, RemoveTradingPair, AddTradingPair, AddUser, DepositBalance,
      WithdrawBalance, UntimedBook, Untimed, UntimedPlaced;
    match c
    case AddPair(pair) => UntimedAddPair(s, pair);
    case RemovePair(pair) => UntimedRemovePair(s, pair);
    case PlaceOrder(pair, order) => UntimedAddOrder(s, pair, order);
    case Cancelling(pair, id) => UntimedCancelOrder(s, pair, id);
    case Modifying(pair, m) => UntimedModifyOrder(s, pair, m, now);
    case NewUser(user) => UntimedAccounts(s, user, ETH, 0);
    case DropUser(user) => UntimedRemoveUser(s, user);
    case Deposit(user, asset, quantity) => UntimedAccounts(s, user, asset, quantity);
    case Withdrawal(user, asset, quantity) => UntimedAccounts(s, user, asset, quantity);
  }

  // ---- Two runs of the same commands ----

  /** The same answers: same refusals, same trades with the same parties, prices and quantities. */
  predicate SameReply(r: Reply, q: Reply) {
    UntimedReply(r) == UntimedReply(q)
  }

  /** What a client sees of the trades is the same up to trade ids and times. */
  lemma {:induction false} SameTrades(r: Reply, q: Reply)
    requires SameReply(r, q) && r.OrderPlaced? && r.placed.Traded?
    ensures q.OrderPlaced? && q.placed.Traded? && |q.placed.matches| == |r.placed.matches|
    ensures forall i :: 0 <= i < |r.placed.matches| ==>
              && r.placed.matches[i].BidInfo() == q.placed.matches[i].BidInfo()
              && r.placed.matches[i].AskInfo() == q.placed.matches[i].AskInfo()
  {
    forall i | 0 <= i < |r.placed.matches|
      ensures r.placed.matches[i].BidInfo() == q.placed.matches[i].BidInfo()
      ensures r.placed.matches[i].AskInfo() == q.placed.matches[i].AskInfo()
    {
      assert UntimedMatch(r.placed.matches[i]) == UntimedMatches(r.placed.matches)[i]
             == UntimedMatch(q.placed.matches[i]);
    }
  }

  lemma {:induction false} ExecAlike(s: State, t: State, c: Command, now: Timestamp, later: Timestamp)
    requires Alike(s, t)
    ensures Alike(Exec(s, c, now).0, Exec(t, c, later).0) && SameReply(Exec(s, c, now).1, Exec(t, c, later).1)
    ensures Exec(s, c, now).1.Faulty() == Exec(t, c, later).1.Faulty()
    ensures Exec(s, c, now).1.Faulty() ==> Exec(s, c, now).1.placed.fault == Exec(t, c, later).1.placed.fault
  {
    hide Exec, UntimedState;
    ExecUntimed(s, c, now);
    ExecUntimed(t, c, later);
  }

  /** Two runs that differ in clocks only. */
  predicate SameRun(t: Run, u: Run) {
    && t.fault == u.fault && |t.replies| == |u.replies|
    && (forall i :: 0 <= i < |t.replies| ==> SameReply(t.replies[i], u.replies[i]))
    && (t.fault == None ==> Alike(t.state, u.state))
  }

  lemma {:induction false} AdvanceAlike(t: Run, u: Run, c: Command, now: Timestamp, later: Timestamp)
    requires SameRun(t, u) && t.fault == None
    ensures SameRun(Advance(t, c, now), Advance(u, c, later))
  {
    hide Exec, Alike, SameReply, NextGains;
    ExecAlike(t.state, u.state, c, now, later);
  }

  /** Replay: the same commands under any other readings of the clock give the same books, users, balances and
      locks, the same answers, and stop at the same panic if there is one. Both runs are taken to draw their trade
      ids, which a clock that never goes back allows. */
  lemma {:induction false} ReplayLaw(t: Run, u: Run, cmds: seq<Command>, clock: nat -> Timestamp,
                                     clock': nat -> Timestamp)
    requires SameRun(t, u)
    ensures SameRun(RunAll(t, cmds, clock), RunAll(u, cmds, clock'))
    decreases cmds
  {
    hide Advance, SameRun;
    if cmds != [] {
      SameFault(t, u);
      if t.fault == None {
        AdvanceAlike(t, u, cmds[0], clock(|t.replies|), clock'(|u.replies|));
        ReplayLaw(Advance(t, cmds[0], clock(|t.replies|)), Advance(u, cmds[0], clock'(|u.replies|)), cmds[1..], clock,
              clock');
      }
    }
  }

  lemma {:induction false} SameFault(t: Run, u: Run)
    requires SameRun(t, u)
    ensures t.fault == u.fault
  {
  }

  /** One more command extends the run by one step, unless a panic has ended it. */
  lemma {:induction false} RunOneMore(t: Run, cmds: seq<Command>, c: Command, clock: nat -> Timestamp)
    ensures var u := RunAll(t, cmds, clock);
            RunAll(t, cmds + [c], clock) == if u.fault.Some? then u else Advance(u, c, clock(|u.replies|))
    decreases cmds
  {
    hide Advance;
    if cmds == [] {
      assert [c][1..] == [];
      assert cmds + [c] == [c];
    } else if t.fault == None {
      assert (cmds + [c])[1..] == cmds[1..] + [c];
      RunOneMore(Advance(t, cmds[0], clock(|t.replies|)), cmds[1..], c, clock);
    }
  }
}
