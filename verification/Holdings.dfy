/** Which locks there are: over whole runs, a lock is there exactly while it is needed or holds price improvement. */
module Holdings {
  import opened Types
  import opened Levels
  import opened Soundness
  import opened OrderBooks
  import opened BookLaws
  import opened Users
  import opened Engine
  import opened Settlement
  import opened EngineLaws
  import opened Runs
  import opened Spread
  import opened Overflow

  ghost predicate HasLock(users: map<UserId, Account>, id: OrderId) {
    exists u :: u in users && id in users[u].locks
  }

  /** No sell in the books has improvement on record. */
  ghost predicate SellsPlain(s: State, g: Gains) {
    forall p, o :: p in s.books && o in s.books[p].Orders() && o.side.Sell? ==> Gain(g, o.id) == 0
  }

  /** No id is locked under by two users, and no lock is empty. */
  ghost predicate LocksApart(users: map<UserId, Account>) {
    && (forall u, v, id :: u in users && v in users && id in users[u].locks && id in users[v].locks ==> u == v)
    && (forall u, id :: u in users && id in users[u].locks ==> users[u].locks[id].amount > 0)
  }

  /** Recorded improvement is locked. */
  ghost predicate Held(s: State, g: Gains) {
    && (forall id :: Gain(g, id) > 0 ==> HasLock(s.users, id))
    && SellsPlain(s, g)
    && LocksApart(s.users)
  }

  /** Orders and locks that are left were there before, as they are. */
  ghost predicate Fewer(s: State, s': State) {
    && (forall p, o :: p in s'.books && o in s'.books[p].Orders() ==> p in s.books && o in s.books[p].Orders())
    && (forall u, id :: u in s'.users && id in s'.users[u].locks ==>
          u in s.users && id in s.users[u].locks && s'.users[u].locks[id] == s.users[u].locks[id])
  }

  lemma {:induction false} FewerHeld(s: State, g: Gains, s': State, g': Gains)
    requires Held(s, g) && Fewer(s, s')
    requires forall id :: Gain(g', id) <= Gain(g, id) && (Gain(g', id) > 0 ==> HasLock(s'.users, id))
    ensures Held(s', g')
  {
    hide Gain, HasLock, Book.Orders;
  }

  // ---- Placing ----

  /** A run records no improvement for a sell. */
  lemma {:induction false} SellGain(g: Gains, live: set<Order>, ms: seq<Match>, x: Order)
    requires UniqueIds(live) && LegalRun(live, ms) && x in live && x.side.Sell?
    ensures Gain(GainAll(g, ms), x.id) == Gain(g, x.id)
    decreases ms
  {
    if ms != [] {
      var m := ms[0];
      StepKeepsUnique(live, m);
      assert m.bid.id != x.id;
      if x == m.ask {
        FillsKeep(x, m.quantity);
        FilledGone(live, m, x);
        if x.Fills(m.quantity).remaining > 0 {
          SellGain(GainOne(g, m), Step(live, m), ms[1..], x.Fills(m.quantity));
        } else {
          GainsOutside(GainOne(g, m), ms[1..], Step(live, m), x.id);
        }
      } else {
        SellGain(GainOne(g, m), Step(live, m), ms[1..], x);
      }
    }
  }

  /** What is known once a new order has traded: `ms` runs from the live orders to those in the book. */
  ghost predicate HasTraded(s: State, g: Gains, pair: TradingPair, o: Order, s': State, ms: seq<Match>, g': Gains) {
    && pair in s.books && s'.books.Keys == s.books.Keys
    && (forall p :: p in s.books && p != pair ==> s'.books[p] == s.books[p])
    && UniqueIds(s.books[pair].Orders() + {o}) && LegalRun(s.books[pair].Orders() + {o}, ms)
    && Traced(s.books[pair].Orders() + {o}, s'.books[pair].Orders())
    && g' == (if o.kind.FillAndKill? then GainAll(g, ms) - {o.id} else GainAll(g, ms))
    && LocksPaid(s, s', pair, o, ms, g')
  }

  lemma {:induction false} PlacedFacts(s: State, g: Gains, pair: TradingPair, o: Order)
    requires Inv(s, g, Nothing) && Fresh(s, g, o.id) && AsNew(o) && AddOrder(s, pair, o).1.Traded?
    ensures var (s', r) := AddOrder(s, pair, o);
            HasTraded(s, g, pair, o, s', r.matches, ExecGains(g, o, r)) && Inv(s', ExecGains(g, o, r), Nothing)
  {
    hide Inv, AddOrder, Add, LocksPaid, GainAll, LegalRun, After, UniqueIds, Book.Valid;
    AddOrderLaw(s, g, pair, o);
    BooksPlaced(s, pair, o);
    BookOf(s, g, pair);
    var discarded := AddSound(s.books[pair], o);
    NewIsApart(s.books[pair], o);
    RunTraced(s.books[pair].Orders() + {o}, AddOrder(s, pair, o).1.matches);
  }

  lemma {:induction false} LiveOne(os: set<Order>, id: OrderId) returns (x: Order)
    requires id in Ids(os)
    ensures x in os && x.id == id
  {
    x :| x in os && x.id == id;
  }

  lemma {:induction false} StillThere(s: State, g: Gains, p: TradingPair, x: Order)
    requires Inv(s, g, Nothing) && p in s.books && x in s.books[p].Orders()
    ensures x.user in s.users && x.id in s.users[x.user].locks
  {
    hide UniqueIds, Sane, Due, AllSolvent, BooksApart, LocksKnown, Book.Valid, Book.Orders;
    assert BookInv(s, g, Nothing, p);
    LiveNothing(s, p);
    assert Backed(s.users, p, x, g);
  }

  lemma {:induction false} PlacedGain(s: State, g: Gains, pair: TradingPair, o: Order, s': State, ms: seq<Match>,
                                      g': Gains, id: OrderId)
    requires HasTraded(s, g, pair, o, s', ms, g') && Inv(s', g', Nothing) && Held(s, g) && Fresh(s, g, o.id)
    requires Gain(g', id) > 0
    ensures HasLock(s'.users, id)
  {
    hide Inv, Fresh, GainAll, LegalRun, UniqueIds, Traced, SellsPlain, Book.Orders, Spent, HoldsLock, SameLock, NoneNew,
      LocksApart;
    var live := s.books[pair].Orders() + {o};
    if id in Ids(live) {
      var x := LiveOne(live, id);
      if id in Ids(s'.books[pair].Orders()) {
        var y := LiveOne(s'.books[pair].Orders(), id);
        StillThere(s', g', pair, y);
      } else {
        SellPlain(s, g, pair, o, x);
        if x.side.Sell? {
          SellGain(g, live, ms, x);
        }
        PaidGain(s'.users, pair, x, Had(s, o, x), s'.books[pair].Orders(), ms, g');
      }
    } else {
      GainsOutside(g, ms, live, id);
      var u :| u in s.users && id in s.users[u].locks;
      KeptLock(s.users, s'.users, u, id, Ids(live));
    }
  }

  lemma {:induction false} KeptLock(users: map<UserId, Account>, users': map<UserId, Account>, u: UserId, id: OrderId,
                                    ids: set<OrderId>)
    requires OthersSame(users, users', ids) && u in users && id !in ids
    ensures u in users' && SameLock(users[u], users'[u], id)
  {
  }

  /** The improvement of a filled order is locked. */
  lemma {:induction false} PaidGain(users': map<UserId, Account>, pair: TradingPair, x: Order, had: int,
                                    live': set<Order>, ms: seq<Match>, g': Gains)
    requires PaidFor(users', pair, x, had, live', ms, g') && x.id !in Ids(live') && Improved(x, g') > 0
    ensures HasLock(users', x.id)
  {
  }

  lemma {:induction false} SellPlain(s: State, g: Gains, pair: TradingPair, o: Order, x: Order)
    requires SellsPlain(s, g) && Fresh(s, g, o.id) && pair in s.books && x in s.books[pair].Orders() + {o}
    ensures x.side.Sell? ==> Gain(g, x.id) == 0
  {
    hide Gain, Book.Orders;
  }

  lemma {:induction false} PlacedSells(s: State, g: Gains, pair: TradingPair, o: Order, s': State, ms: seq<Match>,
                                       g': Gains)
    requires HasTraded(s, g, pair, o, s', ms, g') && Inv(s, g, Nothing) && SellsPlain(s, g) && Fresh(s, g, o.id)
    ensures SellsPlain(s', g')
  {
    hide Fresh, GainAll, LegalRun, UniqueIds, Book.Orders, LocksPaid, BookInv, AllSolvent, LocksKnown;
    var live := s.books[pair].Orders() + {o};
    forall p, y | p in s'.books && y in s'.books[p].Orders() && y.side.Sell?
      ensures Gain(g', y.id) == 0
    {
      if p == pair {
        var x :| x in live && x.Fixed() == y.Fixed();
        SameTaker(x, y);
        SellPlain(s, g, pair, o, x);
        SellGain(g, live, ms, x);
      } else {
        Elsewhere(s, g, pair, o, p, y);
        GainsOutside(g, ms, live, y.id);
      }
    }
  }

  /** Orders of other books are none of the live ones. */
  lemma {:induction false} Elsewhere(s: State, g: Gains, pair: TradingPair, o: Order, p: TradingPair, y: Order)
    requires Inv(s, g, Nothing) && Fresh(s, g, o.id) && pair in s.books && p in s.books && p != pair
    requires y in s.books[p].Orders()
    ensures y.id !in Ids(s.books[pair].Orders() + {o})
  {
    hide BookInv, AllSolvent, LocksKnown, Book.Orders, UniqueIds, LevelsOk;
    LiveNothing(s, p);
    LiveNothing(s, pair);
    BookOf(s, g, p);
    assert y.id in Ids(Live(s, p, Nothing));
    assert y.id in s.books[p].index.Keys;
    forall x | x in s.books[pair].Orders()
      ensures x.id != y.id
    {
      assert x.id in Ids(Live(s, pair, Nothing));
    }
  }

  lemma {:induction false} PlacedApart(s: State, g: Gains, pair: TradingPair, o: Order, s': State, ms: seq<Match>,
                                       g': Gains)
    requires HasTraded(s, g, pair, o, s', ms, g') && Inv(s, g, Nothing) && LocksApart(s.users) && Fresh(s, g, o.id)
    ensures LocksApart(s'.users)
  {
    hide Inv, Fresh, GainAll, LegalRun, UniqueIds, Book.Orders, Traced, Spent, Improved, NoneNew, Had;
    var live := s.books[pair].Orders() + {o};
    forall u, id | u in s'.users && id in s'.users[u].locks
      ensures s'.users[u].locks[id].amount > 0 && (id == o.id || id in s.users[u].locks) && (id == o.id ==> u == o.user)
    {
      if id in Ids(live) {
        var x := LiveOne(live, id);
        OwnerLocks(s, g, pair, o, x, u, s'.users);
        assert PaidFor(s'.users, pair, x, Had(s, o, x), s'.books[pair].Orders(), ms, g');
      } else {
        KeptLock(s.users, s'.users, u, id, Ids(live));
        OwnId(s.books[pair].Orders(), o);
      }
    }
  }

  /** Only its owner has a lock under a live order's id. */
  lemma {:induction false} OwnerLocks(s: State, g: Gains, pair: TradingPair, o: Order, x: Order, u: UserId,
                                      users': map<UserId, Account>)
    requires Inv(s, g, Nothing) && Fresh(s, g, o.id) && pair in s.books && x in s.books[pair].Orders() + {o}
    requires users'.Keys == s.users.Keys && NoneNew(s.users, users', o) && u in users' && x.id in users'[u].locks
    ensures x.user == u
    ensures x.id == o.id || x.id in s.users[u].locks
    ensures x.id == o.id ==> u == o.user
  {
    hide UniqueIds, AllBacked, Book.Orders, AllSolvent, LocksKnown, BooksApart, Book.Valid;
    assert BookInv(s, g, Nothing, pair);
    BookOf(s, g, pair);
    LiveIds(s, pair);
    if x != o {
      assert x.id in Ids(Live(s, pair, Nothing));
      assert x.id in s.books[pair].index.Keys;
    }
  }

  lemma {:induction false} PlacingHeld(s: State, g: Gains, pair: TradingPair, o: Order)
    requires Inv(s, g, Nothing) && Fresh(s, g, o.id) && AsNew(o) && AddOrder(s, pair, o).1.Traded? && Held(s, g)
    ensures var (s', r) := AddOrder(s, pair, o); Held(s', ExecGains(g, o, r))
  {
    hide Inv, Fresh, AddOrder, ExecGains, HasTraded, SellsPlain, LocksApart, Gain, HasLock;
    var (s', r) := AddOrder(s, pair, o);
    PlacedFacts(s, g, pair, o);
    PlacedSells(s, g, pair, o, s', r.matches, ExecGains(g, o, r));
    PlacedApart(s, g, pair, o, s', r.matches, ExecGains(g, o, r));
    forall id | Gain(ExecGains(g, o, r), id) > 0
      ensures HasLock(s'.users, id)
    {
      PlacedGain(s, g, pair, o, s', r.matches, ExecGains(g, o, r), id);
    }
  }

  // ---- All commands ----

  lemma {:induction false} LessGain(g: Gains, id: OrderId, i: OrderId)
    ensures Gain(g - {id}, i) == if i == id then 0 else Gain(g, i)
  {
  }

  lemma {:induction false} CancelHeld(s: State, g: Gains, pair: TradingPair, id: OrderId)
    requires Inv(s, g, Nothing) && Held(s, g) && CancelOrder(s, pair, id).1
    ensures Held(CancelOrder(s, pair, id).0, g - {id})
  {
    hide Inv, Book.Orders, CancelOrder, Gain, SellsPlain, LocksApart;
    var s' := CancelOrder(s, pair, id).0;
    CancelOrderLaw(s, g, pair, id);
    forall i | Gain(g - {id}, i) > 0
      ensures HasLock(s'.users, i)
    {
      LessGain(g, id, i);
      assert HasLock(s.users, i);
      var u :| u in s.users && i in s.users[u].locks;
      assert i in s'.users[u].locks;
    }
    forall i
      ensures Gain(g - {id}, i) <= Gain(g, i)
    {
      LessGain(g, id, i);
    }
    FewerHeld(s, g, s', g - {id});
  }

  lemma {:induction false} ModifyHeld(s: State, g: Gains, pair: TradingPair, m: OrderModify, now: Timestamp)
    requires Inv(s, g, Nothing) && Held(s, g) && ModifyOrder(s, pair, m, now).1.Traded?
    ensures var (s', r) := ModifyOrder(s, pair, m, now); Held(s', GainAll(g - {m.id}, r.matches))
  {
    hide Inv, Held, AddOrder, CancelOrder, ModifyOrder, ModifyRefused, GainAll, Fresh;
    ModifyOrderLaw(s, g, pair, m, now);
    ModifyIsCancelThenAdd(s, g, pair, m, now);
    CancelOrderLaw(s, g, pair, m.id);
    CancelHeld(s, g, pair, m.id);
    PlacingHeld(CancelOrder(s, pair, m.id).0, g - {m.id}, pair, Replacement(s.books[pair].index[m.id], m, now));
  }

  /** Users and pairs that go take their locks' record along. */
  lemma {:induction false} RemovalHeld(s: State, g: Gains, s': State)
    requires Held(s, g) && Fewer(s, s')
    ensures Held(s', StillHeld(g, s'.users))
  {
    hide Fewer, SellsPlain, LocksApart;
    var g' := StillHeld(g, s'.users);
    forall id
      ensures Gain(g', id) <= Gain(g, id) && (Gain(g', id) > 0 ==> HasLock(s'.users, id))
    {
    }
    FewerHeld(s, g, s', g');
  }

  /** What moves no order and no lock. */
  lemma {:induction false} SameHeld(s: State, g: Gains, s': State)
    requires Held(s, g) && Fewer(s, s')
    requires forall u :: u in s.users ==> u in s'.users && s'.users[u].locks == s.users[u].locks
    ensures Held(s', g)
  {
    hide SellsPlain, LocksApart, Book.Orders;
    forall id | HasLock(s.users, id)
      ensures HasLock(s'.users, id)
    {
      var u :| u in s.users && id in s.users[u].locks;
      assert id in s'.users[u].locks;
    }
    FewerHeld(s, g, s', g);
  }

  lemma {:induction false} RemovedPair(s: State, g: Gains, pair: TradingPair)
    requires Inv(s, g, Nothing)
    ensures Fewer(s, RemoveTradingPair(s, pair))
  {
    hide Inv, Book.Orders, RemoveTradingPair;
    RemoveTradingPairLaw(s, g, pair);
    if pair !in s.books {
      assert RemoveTradingPair(s, pair) == s by { NoSuchBook(s, pair); }
    }
  }

  lemma {:induction false} NoSuchBook(s: State, pair: TradingPair)
    ensures pair !in s.books ==> RemoveTradingPair(s, pair) == s
  {
  }

  lemma {:induction false} RemovedUser(s: State, g: Gains, user: UserId)
    requires Inv(s, g, Nothing)
    ensures Fewer(s, RemoveUser(s, user))
  {
    hide Inv, CancelUser, Book.Valid, LevelsOk, KeepsOrder;
    RemoveUserLaw(s, g, user);
    var s' := RemoveUser(s, user);
    forall p, o | p in s'.books && o in s'.books[p].Orders()
      ensures p in s.books && o in s.books[p].Orders()
    {
      BookOf(s, g, p);
      CancelUserLaw(s.books[p], user);
    }
    assert forall u :: u in s'.users ==> u in s.users && s'.users[u] == s.users[u];
  }

  lemma {:induction false} AddedPair(s: State, g: Gains, pair: TradingPair)
    requires Inv(s, g, Nothing)
    ensures Fewer(s, AddTradingPair(s, pair))
  {
    hide Inv, Book.Orders, AddTradingPair;
    AddTradingPairLaw(s, g, pair);
  }

  lemma {:induction false} ExecHeld(s: State, g: Gains, last: int, c: Command, now: Timestamp)
    requires Reachable(s, g, last) && Admissible(c, last) && Held(s, g)
    ensures var (s', r) := Exec(s, c, now); !r.Faulty() ==> Held(s', NextGains(g, c, r, s'))
  {
    hide Inv, Held, Fresh, AddOrder, CancelOrder, ModifyOrder, RemoveUser, RemoveTradingPair, AddTradingPair, AddUser,
      DepositBalance, WithdrawBalance, ExecGains, Fewer, StillHeld;
    match c
    case AddPair(pair) =>
      AddedPair(s, g, pair);
      AddTradingPairLaw(s, g, pair);
      SameHeld(s, g, AddTradingPair(s, pair));
    case RemovePair(pair) =>
      RemovedPair(s, g, pair);
      RemovalHeld(s, g, RemoveTradingPair(s, pair));
    case PlaceOrder(pair, order) =>
      AddOrderLaw(s, g, pair, order);
      NoGains(g, order);
      if AddOrder(s, pair, order).1.Traded? {
        PlacingHeld(s, g, pair, order);
      }
    case Cancelling(pair, id) =>
      CancelOrderLaw(s, g, pair, id);
      if CancelOrder(s, pair, id).1 {
        CancelHeld(s, g, pair, id);
      }
    case Modifying(pair, m) =>
      ModifyOrderLaw(s, g, pair, m, now);
      if ModifyOrder(s, pair, m, now).1.Traded? {
        ModifyHeld(s, g, pair, m, now);
      }
    case NewUser(user) =>
      AddedUser(s, g, user);
      SameHeld(s, g, AddUser(s, user));
    case DropUser(user) =>
      RemovedUser(s, g, user);
      RemovalHeld(s, g, RemoveUser(s, user));
    case Deposit(user, asset, quantity) =>
      DepositLaw(s, g, user, asset, quantity);
      MovedBalance(s, g, DepositBalance(s, user, asset, quantity).0, user, asset, quantity);
    case Withdrawal(user, asset, quantity) =>
      WithdrawLaw(s, g, user, asset, quantity);
      MovedBalance(s, g, WithdrawBalance(s, user, asset, quantity).0, user, asset, -(quantity as int));
  }

  lemma {:induction false} AddedUser(s: State, g: Gains, user: UserId)
    requires Inv(s, g, Nothing)
    ensures var s' := AddUser(s, user);
            Fewer(s, s') && forall u :: u in s.users ==> u in s'.users && s'.users[u].locks == s.users[u].locks
  {
    hide Inv, Book.Orders, AddUser;
    AddUserLaw(s, g, user);
  }

  lemma {:induction false} MovedBalance(s: State, g: Gains, s': State, user: UserId, asset: Asset, change: int)
    requires Held(s, g) && (s' == s || OneBalance(s, s', user, asset, change))
    ensures Held(s', g)
  {
    hide Held, Book.Orders;
    SameHeld(s, g, s');
  }

  // ---- Runs ----

  lemma {:induction false} RunHeld(t: Run, cmds: seq<Command>, clock: nat -> Timestamp)
    requires AllAdmissible(cmds, t.last) && RunAll(t, cmds, clock).fault == None
    requires t.fault == None ==> Reachable(t.state, t.gains, t.last) && Held(t.state, t.gains)
    ensures Held(RunAll(t, cmds, clock).state, RunAll(t, cmds, clock).gains)
    decreases cmds
  {
    hide Reachable, Exec, NextGains, Held;
    if cmds != [] && t.fault == None {
      var now := clock(|t.replies|);
      ExecLaw(t.state, t.gains, t.last, cmds[0], now);
      ExecHeld(t.state, t.gains, t.last, cmds[0], now);
      RunHeld(Advance(t, cmds[0], now), cmds[1..], clock);
    }
  }

  lemma {:induction false} StartHeld()
    ensures Held(NEW_ENGINE, map[])
  {
  }

  /** In every reachable state there is a lock under an id exactly if an order rests under it or improvement is on
      record for it; it is one user's, and without a resting order it holds that improvement exactly. */
  lemma {:induction false} ReachableLocks(cmds: seq<Command>, clock: nat -> Timestamp)
    requires AllAdmissible(cmds, -1)
    ensures var t := RunAll(START, cmds, clock);
            var s := t.state;
            t.fault == None ==>
              && (forall id :: HasLock(s.users, id) <==>
                    (exists p :: p in s.books && id in s.books[p].index) || Gain(t.gains, id) > 0)
              && (forall u, v, id ::
                    u in s.users && v in s.users && id in s.users[u].locks && id in s.users[v].locks ==> u == v)
              && (forall u, id :: u in s.users && id in s.users[u].locks ==>
                    && s.users[u].locks[id].amount > 0
                    && ((exists p :: p in s.books && id in s.books[p].index)
                        || s.users[u].locks[id].amount == Gain(t.gains, id)))
  {
    hide RunAll, Inv, Gain;
    StartReachable();
    StartHeld();
    RunLaw(START, cmds, clock);
    var t := RunAll(START, cmds, clock);
    if t.fault == None {
      RunHeld(START, cmds, clock);
      IndexedLocks(t.state, t.gains);
      forall p, id | p in t.state.books && id in t.state.books[p].index
        ensures HasLock(t.state.users, id)
      {
        IndexedOrder(t.state, t.gains, p, id);
      }
    }
  }

  // ---- Balances ----

  /** What placing an order does to balances: every buyer is credited the quantities it bought, every seller the
      notional it sold for, and nothing else changes. */
  lemma {:induction false} PlacingCredits(s: State, g: Gains, pair: TradingPair, o: Order)
    requires Inv(s, g, Nothing) && Fresh(s, g, o.id) && AsNew(o) && AddOrder(s, pair, o).1.Traded?
    ensures var (s', r) := AddOrder(s, pair, o); Credits(s, s', pair, r.matches)
  {
    hide Inv, Add, Settle, LockedSum, Book.Valid, UniqueIds, LegalRun, After, AllBacked, AllSolvent, OwnLocks, Credited;
    var asset, amount := LockAsset(pair, o.side), LockAmount(o.side, o.price, o.initial).value;
    var a := LockedFor(s.users[o.user], o.id, asset, amount).value;
    var s1 := s.(users := s.users[o.user := a]);
    LockStep(s, g, pair, o, a);
    PendingBook(s1, g, pair, o);
    var _ := AddSound(s.books[pair], o);
    SettleCredits(s1.users, pair, s.books[pair].Orders() + {o}, g, Add(s.books[pair], o).1.value);
  }

  ghost predicate Credits(s: State, s': State, pair: TradingPair, ms: seq<Match>) {
    && s'.users.Keys == s.users.Keys
    && forall u, asset :: u in s.users ==>
         s'.users[u].Balance(asset) == s.users[u].Balance(asset) + Credited(pair, ms, u, asset)
  }

  /** And a modify. */
  lemma {:induction false} ModifyCredits(s: State, g: Gains, pair: TradingPair, m: OrderModify, now: Timestamp)
    requires Inv(s, g, Nothing) && ModifyOrder(s, pair, m, now).1.Traded?
    ensures var (s', r) := ModifyOrder(s, pair, m, now); Credits(s, s', pair, r.matches)
  {
    hide Inv, AddOrder, CancelOrder, ModifyOrder, ModifyRefused, Credited, Fresh;
    ModifyOrderLaw(s, g, pair, m, now);
    ModifyIsCancelThenAdd(s, g, pair, m, now);
    CancelOrderLaw(s, g, pair, m.id);
    PlacingCredits(CancelOrder(s, pair, m.id).0, g - {m.id}, pair, Replacement(s.books[pair].index[m.id], m, now));
  }
}
