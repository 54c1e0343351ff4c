/** The engine as it runs: order books and users as objects, each operation equal to its specification. */
module CoreEngines {
  import opened Types
  import opened OrderBooks
  import opened Users
  import opened Engine
  import opened Runs

  /** What placing or modifying answers its caller. */
  datatype Answer = Refused(error: OrderError) | NothingTraded | Trades(trades: seq<Trade>) | Panic(fault: Engine.Fault)

  /** `answer` is `placed`, its matches published under the ids and times of `stamp`. */
  ghost predicate Answers(answer: Answer, placed: Placed, stamp: nat -> Stamp) {
    match placed
    case Rejected(e) => answer == Refused(e)
    case NoTrades => answer == NothingTraded
    case Traded(ms) => answer == Trades(Recorded(ms, stamp, 0))
    case Panicked(f) => answer == Panic(f)
  }

  /** The answer to any command, as its caller gets it. */
  datatype Response =
    | Done
    | FoundPair(found: bool)
    | Placement(answer: Answer)
    | CancelDone(success: bool)
    | UserDone(error: Option<UserError>)
    | LastBalances(balances: Option<map<Asset, Quantity>>)

  ghost predicate Responds(response: Response, reply: Reply, stamp: nat -> Stamp) {
    match reply
    case Acknowledged => response == Done
    case PairRemoved(found) => response == FoundPair(found)
    case OrderPlaced(placed) => response.Placement? && Answers(response.answer, placed, stamp)
    case OrderCancelled(success) => response == CancelDone(success)
    case UserAnswer(error) => response == UserDone(error)
    case FinalBalances(balances) => response == LastBalances(balances)
  }

  class CoreEngine {
    var orderbooks: map<TradingPair, OrderBook>
    var users: map<UserId, User>

    /** Books and users are owned: no two keys share one. */
    ghost predicate Valid()
      reads this
    {
      && (forall p, q :: p in orderbooks && q in orderbooks && p != q ==> orderbooks[p] != orderbooks[q])
      && (forall u, v :: u in users && v in users && u != v ==> users[u] != users[v])
    }

    ghost function Repr(): set<object>
      reads this
    {
      {this} + orderbooks.Values + users.Values
    }

    ghost function Books(): map<TradingPair, Book>
      reads this, orderbooks.Values
    {
      map p | p in orderbooks :: orderbooks[p].Value()
    }

    ghost function Accounts(): map<UserId, Account>
      reads this, users.Values
    {
      map u | u in users :: users[u].Value()
    }

    ghost function Value(): State
      reads this, orderbooks.Values, users.Values
    {
      State(Books(), Accounts())
    }

    constructor ()
      ensures Valid() && fresh(Repr()) && Value() == NEW_ENGINE
    {
      orderbooks, users := map[], map[];
    }

    // ---- Settlement ----

    method FillUser(user: UserId, id: OrderId, debitAsset: Asset, debit: Quantity, creditAsset: Asset, credit: Quantity)
      returns (fault: Option<Engine.Fault>)
      requires Valid()
      modifies users.Values
      ensures Books() == old(Books())
      ensures match FillSide(old(Accounts()), user, id, debitAsset, debit, creditAsset, credit)
              case Settled(accounts) => fault == None && Accounts() == accounts
              case Fault(f) => fault == Some(f)
    {
      if user !in users {
        return Some(UserMissing);
      }
      var error := users[user].ApplyFill(id, debitAsset, debit, creditAsset, credit);
      if error.Some? {
        return Some(FillFailed(error.value));
      }
      fault := None;
      assert Accounts() == old(Accounts())[user := users[user].Value()];
    }

    /** Settles the trade list in order; a fault stops it. */
    method SettleTrades(pair: TradingPair, trades: seq<Trade>, ghost ms: seq<Match>, ghost stamp: nat -> Stamp)
      returns (fault: Option<Engine.Fault>)
      requires Valid() && trades == Recorded(ms, stamp, 0)
      modifies users.Values
      ensures Books() == old(Books())
      ensures match Settle(old(Accounts()), pair, ms)
              case Settled(accounts) => fault == None && Accounts() == accounts
              case Fault(f) => fault == Some(f)
    {
      assert ms[0..] == ms;
      for i := 0 to |trades|
        invariant Settle(Accounts(), pair, ms[i..]) == Settle(old(Accounts()), pair, ms)
      {
        var bid, ask := trades[i].bid, trades[i].ask;
        assert ms[i..][0] == ms[i] && ms[i..][1..] == ms[i + 1..];
        assert bid == ms[i].BidInfo() && ask == ms[i].AskInfo();
        var notional := Notional(bid.price, bid.quantity);
        if notional == None {
          return Some(NotionalOverflow);
        }
        fault := FillUser(bid.user, bid.orderId, pair.quote, notional.value, pair.base, bid.quantity);
        if fault.Some? {
          return;
        }
        fault := FillUser(ask.user, ask.orderId, pair.base, bid.quantity, pair.quote, notional.value);
        if fault.Some? {
          return;
        }
      }
      assert ms[|trades|..] == [];
      fault := None;
    }

    // ---- Orders ----

    method Unlock(user: UserId, id: OrderId)
      requires Valid()
      modifies users.Values
      ensures Books() == old(Books())
      ensures Accounts() == UnlockFor(old(Accounts()), user, id)
    {
      if user in users {
        var _ := users[user].UnlockOrder(id);
        assert Accounts() == old(Accounts())[user := users[user].Value()];
      }
    }

    /** Adds the order to its book; no account changes. */
    method PlaceInBook(pair: TradingPair, order: Order, stamp: nat -> Stamp) returns (result: Option<seq<Trade>>)
      requires Valid() && pair in orderbooks
      modifies orderbooks[pair]
      ensures Books() == old(Books())[pair := Add(old(Books())[pair], order).0] && Accounts() == old(Accounts())
      ensures match Add(old(Books())[pair], order).1
              case None => result == None
              case Some(ms) => result == Some(Recorded(ms, stamp, 0))
    {
      hide Add, Recorded;
      result := orderbooks[pair].AddOrder(order, stamp);
      assert Books() == old(Books())[pair := orderbooks[pair].Value()];
    }

    /** Match and settle an order whose funds are locked. */
    method Execute(pair: TradingPair, order: Order, stamp: nat -> Stamp) returns (answer: Answer)
      requires Valid() && pair in orderbooks
      modifies orderbooks[pair], users.Values
      ensures var (s', r) := ExecuteOn(old(Value()), pair, order);
              Answers(answer, r, stamp) && (!r.Panicked? ==> Value() == s')
    {
      hide Add, Settle, Recorded;
      var result := PlaceInBook(pair, order, stamp);
      if result == None {
        Unlock(order.user, order.id);
        return NothingTraded;
      }
      ghost var ms := Add(old(Books())[pair], order).1.value;
      var fault := SettleTrades(pair, result.value, ms, stamp);
      if fault.Some? {
        return Panic(fault.value);
      }
      if order.kind.FillAndKill? {
        Unlock(order.user, order.id);
      }
      answer := Trades(result.value);
    }

    /** Locks funds of an existing user for an order. */
    method LockFunds(user: UserId, id: OrderId, asset: Asset, amount: Quantity) returns (ok: bool)
      requires Valid() && user in users
      modifies users.Values
      ensures Books() == old(Books())
      ensures var a := LockedFor(old(Accounts())[user], id, asset, amount);
              ok == a.Some? && Accounts() == if ok then old(Accounts())[user := a.value] else old(Accounts())
    {
      hide LockedFor;
      ok := users[user].Lock(id, asset, amount);
      assert Accounts() == old(Accounts())[user := users[user].Value()];
      assert !ok ==> old(Accounts())[user := old(Accounts())[user]] == old(Accounts());
    }

    method AddOrder(pair: TradingPair, order: Order, stamp: nat -> Stamp) returns (answer: Answer)
      requires Valid()
      modifies orderbooks.Values, users.Values
      ensures var (s', r) := Engine.AddOrder(old(Value()), pair, order);
              Answers(answer, r, stamp) && (!r.Panicked? ==> Value() == s')
    {
      hide ExecuteOn, LockedFor, ValidOrder, Recorded;
      if !ValidOrder(order.price, order.initial) {
        return Refused(InvalidOrder);
      }
      if pair !in orderbooks {
        return Refused(NoSuchPair);
      }
      if order.id in orderbooks[pair].ordersMap {
        return Refused(InvalidOrder);
      }
      var lockAmount := LockAmount(order.side, order.price, order.initial);
      if lockAmount == None {
        return Refused(InvalidOrder);
      }
      if order.user !in users {
        return Refused(NoSuchUser);
      }
      var ok := LockFunds(order.user, order.id, LockAsset(pair, order.side), lockAmount.value);
      if !ok {
        return Refused(InsufficientBalance);
      }
      answer := Execute(pair, order, stamp);
    }

    /** Takes the order out of its book; no account changes. */
    method TakeFromBook(pair: TradingPair, id: OrderId) returns (order: Option<Order>)
      requires Valid() && pair in orderbooks
      modifies orderbooks[pair]
      ensures Books() == old(Books())[pair := Cancel(old(Books())[pair], id).0] && Accounts() == old(Accounts())
      ensures order == Cancel(old(Books())[pair], id).1
    {
      hide Cancel;
      order := orderbooks[pair].CancelOrder(id);
      assert Books() == old(Books())[pair := orderbooks[pair].Value()];
    }

    method CancelOrder(pair: TradingPair, id: OrderId) returns (success: bool)
      requires Valid()
      modifies orderbooks.Values, users.Values
      ensures (Value(), success) == Engine.CancelOrder(old(Value()), pair, id)
    {
      if pair !in orderbooks {
        return false;
      }
      var order := TakeFromBook(pair, id);
      if order == None {
        assert old(Books())[pair := old(Books())[pair]] == old(Books());
        return false;
      }
      Unlock(order.value.user, id);
      success := true;
    }

    /** The checks of a modify; they change nothing. */
    method CheckModify(pair: TradingPair, m: OrderModify) returns (refused: Option<OrderError>)
      requires Valid()
      ensures refused == ModifyRefused(Value(), pair, m)
    {
      hide LockedFor, ValidOrder, Available;
      if !ValidOrder(m.price, m.quantity) {
        return Some(InvalidOrder);
      }
      if pair !in orderbooks {
        return Some(NoSuchPair);
      }
      if m.id !in orderbooks[pair].ordersMap {
        return Some(InvalidOrder);
      }
      var before := orderbooks[pair].ordersMap[m.id];
      if m.user != before.user || m.side != before.side {
        return Some(InvalidOrder);
      }
      var newAmount := LockAmount(m.side, m.price, m.quantity);
      if newAmount == None {
        return Some(InvalidOrder);
      }
      if before.user !in users {
        return Some(NoSuchUser);
      }
      var user := users[before.user];
      var oldLocked := if m.id in user.lockedOrders then user.lockedOrders[m.id].amount else 0;
      var available := user.GetAvailableBalance(LockAsset(pair, m.side));
      refused := if newAmount.value > available + oldLocked then Some(InsufficientBalance) else None;
    }

    /** Checks first, so that a refused modify changes nothing; then cancel, release, lock and place again. */
    method ModifyOrder(pair: TradingPair, m: OrderModify, now: Timestamp, stamp: nat -> Stamp) returns (answer: Answer)
      requires Valid()
      modifies orderbooks.Values, users.Values
      ensures var (s', r) := Engine.ModifyOrder(old(Value()), pair, m, now);
              Answers(answer, r, stamp) && (!r.Panicked? ==> Value() == s')
    {
      hide ExecuteOn, LockedFor, Recorded, Cancel, Available, ValidOrder;
      var refused := CheckModify(pair, m);
      if refused.Some? {
        return Refused(refused.value);
      }
      var before := orderbooks[pair].ordersMap[m.id];
      var amount := LockAmount(m.side, m.price, m.quantity);
      var _ := TakeFromBook(pair, m.id);
      Unlock(before.user, m.id);
      var ok := LockFunds(before.user, m.id, LockAsset(pair, m.side), amount.value);
      if !ok {
        return Refused(InsufficientBalance);
      }
      answer := Execute(pair, Replacement(before, m, now), stamp);
    }

    // ---- Pairs and users ----

    method AddTradingPair(pair: TradingPair)
      requires Valid()
      modifies this`orderbooks
      ensures Valid() && fresh(Repr() - old(Repr())) && Value() == Engine.AddTradingPair(old(Value()), pair)
    {
      if pair !in orderbooks {
        var book := new OrderBook();
        orderbooks := orderbooks[pair := book];
        assert Books() == old(Books())[pair := EMPTY_BOOK];
        assert Accounts() == old(Accounts());
      }
    }

    /** Releases the lock of every indexed order, in the index's iteration order. */
    method ReleaseAll(index: map<OrderId, Order>)
      requires Valid()
      modifies users.Values
      ensures Books() == old(Books())
      ensures Accounts() == Released(old(Accounts()), index, index.Keys)
    {
      hide Released;
      var todo := index.Keys;
      ReleasedNone(Accounts(), index);
      assert index.Keys - todo == {};
      while todo != {}
        invariant todo <= index.Keys && Books() == old(Books())
        invariant Accounts() == Released(old(Accounts()), index, index.Keys - todo)
        decreases todo
      {
        var id :| id in todo;
        ReleaseNext(old(Accounts()), index, index.Keys - todo, id);
        Unlock(index[id].user, id);
        assert index.Keys - (todo - {id}) == index.Keys - todo + {id};
        todo := todo - {id};
      }
      assert index.Keys - todo == index.Keys;
    }

    method DropBook(pair: TradingPair)
      requires Valid()
      modifies this`orderbooks
      ensures Valid() && Repr() <= old(Repr())
      ensures Books() == old(Books()) - {pair} && Accounts() == old(Accounts())
    {
      orderbooks := orderbooks - {pair};
    }

    method DropAccount(user: UserId)
      requires Valid()
      modifies this`users
      ensures Valid() && Repr() <= old(Repr())
      ensures Books() == old(Books()) && Accounts() == old(Accounts()) - {user}
    {
      users := users - {user};
    }

    /** Drops the book and releases its orders' locks. */
    method RemoveTradingPair(pair: TradingPair) returns (found: bool)
      requires Valid()
      modifies this`orderbooks, users.Values
      ensures Valid() && Repr() <= old(Repr())
      ensures Value() == Engine.RemoveTradingPair(old(Value()), pair) && found == (pair in old(orderbooks))
    {
      hide Released, Repr, IdsOf;
      if pair !in orderbooks {
        return false;
      }
      found := true;
      var index := orderbooks[pair].ordersMap;
      DropBook(pair);
      ReleaseAll(index);
      ReleasedAll(old(Accounts()), index);
    }

    method AddUser(user: UserId)
      requires Valid()
      modifies this`users
      ensures Valid() && fresh(Repr() - old(Repr())) && Value() == Engine.AddUser(old(Value()), user)
    {
      if user !in users {
        var u := new User();
        users := users[user := u];
        assert Accounts() == old(Accounts())[user := EMPTY_ACCOUNT];
        assert Books() == old(Books());
      }
    }

    /** Releases the user's locks of all these orders. */
    method UnlockAll(user: UserId, ids: seq<OrderId>)
      requires Valid() && user in users
      modifies users.Values
      ensures Books() == old(Books())
      ensures users[user].balances == old(users[user].balances) && Accounts() - {user} == old(Accounts()) - {user}
    {
      for i := 0 to |ids|
        invariant Books() == old(Books())
        invariant users[user].balances == old(users[user].balances) && Accounts() - {user} == old(Accounts()) - {user}
      {
        Unlock(user, ids[i]);
      }
    }

    /** Cancels the user's orders in one book and releases their locks. */
    method CancelIn(pair: TradingPair, user: UserId)
      requires Valid() && pair in orderbooks
      modifies orderbooks[pair], users.Values
      ensures Books() == old(Books())[pair := CancelUser(old(Books())[pair], user)]
      ensures user in users ==> users[user].balances == old(users[user].balances)
      ensures Accounts() - {user} == old(Accounts()) - {user}
    {
      hide CancelUser;
      var cancelled := orderbooks[pair].CancelOrdersForUser(user);
      assert Books() == old(Books())[pair := orderbooks[pair].Value()];
      assert Accounts() == old(Accounts());
      if user in users {
        UnlockAll(user, cancelled);
      }
    }

    /** Cancels the user's orders in every book, in the map's iteration order, then drops the account. */
    method RemoveUser(user: UserId) returns (balances: Option<map<Asset, Quantity>>)
      requires Valid()
      modifies this`users, orderbooks.Values, users.Values
      ensures Valid() && Repr() <= old(Repr())
      ensures Value() == Engine.RemoveUser(old(Value()), user)
      ensures balances == if user in old(users) then Some(old(users[user].balances)) else None
    {
      hide CancelUser, Repr, CancelledIn;
      var todo := orderbooks.Keys;
      ghost var books := Books();
      CancelledNone(books, user);
      assert books.Keys - todo == {};
      while todo != {}
        invariant todo <= orderbooks.Keys && users == old(users)
        invariant Books() == CancelledIn(books, books.Keys - todo, user)
        invariant user in users ==> users[user].balances == old(users[user].balances)
        invariant Accounts() - {user} == old(Accounts()) - {user}
        decreases todo
      {
        var pair :| pair in todo;
        CancelIn(pair, user);
        CancelledNext(books, books.Keys - todo, user, pair);
        assert books.Keys - (todo - {pair}) == books.Keys - todo + {pair};
        todo := todo - {pair};
      }
      assert books.Keys - todo == books.Keys;
      CancelledAll(books, user);
      balances := if user in users then Some(users[user].balances) else None;
      DropAccount(user);
    }

    method DepositBalance(user: UserId, asset: Asset, quantity: Quantity) returns (error: Option<UserError>)
      requires Valid()
      modifies users.Values
      ensures (Value(), error) == Engine.DepositBalance(old(Value()), user, asset, quantity)
    {
      if user !in users {
        return Some(UnknownUser);
      }
      var ok := users[user].AddBalance(asset, quantity);
      error := if ok then None else Some(BalanceOverflow);
      assert Accounts() == old(Accounts())[user := users[user].Value()];
      assert Books() == old(Books());
      assert !ok ==> Accounts() == old(Accounts());
    }

    method WithdrawBalance(user: UserId, asset: Asset, quantity: Quantity) returns (error: Option<UserError>)
      requires Valid()
      modifies users.Values
      ensures (Value(), error) == Engine.WithdrawBalance(old(Value()), user, asset, quantity)
    {
      hide Withdrawn;
      if user !in users {
        return Some(UnknownUser);
      }
      var ok := users[user].SubtractBalance(asset, quantity);
      error := if ok then None else Some(InsufficientFunds);
      assert Accounts() == old(Accounts())[user := users[user].Value()];
      assert Books() == old(Books());
      assert !ok ==> Accounts() == old(Accounts());
    }

    // ---- Any command ----

    /** Carries out a logged or submitted command. */
    method Apply(c: Command, now: Timestamp, stamp: nat -> Stamp) returns (response: Response)
      requires Valid()
      modifies Repr()
      ensures Valid() && forall o :: o in Repr() ==> o in old(Repr()) || fresh(o)
      ensures var (s', r) := Exec(old(Value()), c, now);
              Responds(response, r, stamp) && (!r.Faulty() ==> Value() == s')
    {
      hide Engine.AddOrder, Engine.CancelOrder, Engine.ModifyOrder, Engine.RemoveUser, Engine.RemoveTradingPair,
        Engine.AddTradingPair, Engine.AddUser, Engine.DepositBalance, Engine.WithdrawBalance, Answers, Recorded,
        CoreEngine.Valid;
      match c
      case AddPair(pair) =>
        AddTradingPair(pair);
        response := Done;
      case RemovePair(pair) =>
        var found := RemoveTradingPair(pair);
        response := FoundPair(found);
      case PlaceOrder(pair, order) =>
        var answer := AddOrder(pair, order, stamp);
        response := Placement(answer);
      case Cancelling(pair, id) =>
        var success := CancelOrder(pair, id);
        response := CancelDone(success);
      case Modifying(pair, m) =>
        var answer := ModifyOrder(pair, m, now, stamp);
        response := Placement(answer);
      case NewUser(user) =>
        AddUser(user);
        response := Done;
      case DropUser(user) =>
        var balances := RemoveUser(user);
        response := LastBalances(balances);
      case Deposit(user, asset, quantity) =>
        var error := DepositBalance(user, asset, quantity);
        response := UserDone(error);
      case Withdrawal(user, asset, quantity) =>
        var error := WithdrawBalance(user, asset, quantity);
        response := UserDone(error);
    }
  }

  // ---- Bulk removals ----

  /** The books once the user's orders are cancelled in those of the pairs `done`. */
  function CancelledIn(books: map<TradingPair, Book>, done: set<TradingPair>, user: UserId): map<TradingPair, Book> {
    map p | p in books :: if p in done then CancelUser(books[p], user) else books[p]
  }

  lemma {:induction false} CancelledNone(books: map<TradingPair, Book>, user: UserId)
    ensures CancelledIn(books, {}, user) == books
  {
  }

  lemma {:induction false} CancelledNext(books: map<TradingPair, Book>, done: set<TradingPair>, user: UserId,
                                         pair: TradingPair)
    requires pair in books && pair !in done
    ensures CancelledIn(books, done, user)[pair := CancelUser(CancelledIn(books, done, user)[pair], user)]
         == CancelledIn(books, done + {pair}, user)
  {
  }

  lemma {:induction false} CancelledAll(books: map<TradingPair, Book>, user: UserId)
    ensures CancelledIn(books, books.Keys, user) == map p | p in books :: CancelUser(books[p], user)
  {
  }

  /** The accounts once the locks of the indexed orders `done` are released. */
  function Released(accounts: map<UserId, Account>, index: map<OrderId, Order>, done: set<OrderId>): map<UserId,
                    Account> {
    map u | u in accounts :: accounts[u].(locks := accounts[u].locks - (IdsOf(index, u) * done))
  }

  lemma {:induction false} ReleaseNext(accounts: map<UserId, Account>, index: map<OrderId, Order>, done: set<OrderId>,
                                       id: OrderId)
    requires id in index && id !in done
    ensures UnlockFor(Released(accounts, index, done), index[id].user, id) == Released(accounts, index, done + {id})
  {
    var user := index[id].user;
    forall u | u in accounts
      ensures (if u == user then accounts[u].locks - (IdsOf(index, u) * done) - {id}
               else accounts[u].locks - (IdsOf(index, u) * done))
           == accounts[u].locks - (IdsOf(index, u) * (done + {id}))
    {
      assert IdsOf(index, u) * (done + {id}) == IdsOf(index, u) * done + (if u == user then {id} else {});
    }
  }

  lemma {:induction false} ReleasedNone(accounts: map<UserId, Account>, index: map<OrderId, Order>)
    ensures Released(accounts, index, {}) == accounts
  {
    forall u | u in accounts
      ensures accounts[u].locks - (IdsOf(index, u) * {}) == accounts[u].locks
    {
      assert IdsOf(index, u) * {} == {};
    }
  }

  lemma {:induction false} ReleasedAll(accounts: map<UserId, Account>, index: map<OrderId, Order>)
    ensures Released(accounts, index, index.Keys)
         == map u | u in accounts :: accounts[u].(locks := accounts[u].locks - IdsOf(index, u))
  {
    forall u | u in accounts
      ensures IdsOf(index, u) * index.Keys == IdsOf(index, u)
    {
    }
  }
}
