/** The engine's operations as functions of its state: validate, lock, match, settle. */
module Engine {
  import opened Types
  import opened OrderBooks
  import opened Users

  datatype State = State(books: map<TradingPair, Book>, users: map<UserId, Account>)

  const NEW_ENGINE := State(map[], map[])

  datatype OrderError = NoSuchPair | NoSuchUser | InsufficientBalance | InvalidOrder
  datatype UserError = UnknownUser | InsufficientFunds | BalanceOverflow

  /** Why settlement panics. */
  datatype Fault = NotionalOverflow | UserMissing | FillFailed(error: FillError)

  /** What placing an order answers; `NoTrades` is the source's `Ok(None)`. */
  datatype Placed = Rejected(error: OrderError) | NoTrades | Traded(matches: seq<Match>) | Panicked(fault: Fault)

  datatype OrderModify = OrderModify(id: OrderId, price: Price, side: Side, quantity: Quantity, status: OrderStatus,
        user: UserId)

  /** `price * quantity` if it fits a `Quantity`. A negative price sign-extends to a huge unsigned one. */
  function Notional(price: Price, quantity: Quantity): Option<Quantity> {
    if quantity == 0 then Some(0)
    else if price < 0 || price * quantity > U32_MAX then None
    else
      assert price * quantity >= 0;
      Some(price * quantity)
  }

  predicate ValidOrder(price: Price, quantity: Quantity) {
    price > 0 && quantity != 0 && Notional(price, quantity).Some?
  }

  function LockAsset(pair: TradingPair, side: Side): Asset {
    if side.Buy? then pair.quote else pair.base
  }

  function LockAmount(side: Side, price: Price, quantity: Quantity): Option<Quantity> {
    if side.Buy? then Notional(price, quantity) else Some(quantity)
  }

  // ---- Settlement ----

  datatype Settled = Settled(users: map<UserId, Account>) | Fault(fault: Fault)

  function FillSide(users: map<UserId, Account>, user: UserId, id: OrderId, debitAsset: Asset, debit: Quantity,
                    creditAsset: Asset, credit: Quantity): Settled
  {
    if user !in users then Settled.Fault(UserMissing)
    else
      var r := AfterFill(users[user], id, debitAsset, debit, creditAsset, credit);
      if r.error.Some? then Settled.Fault(FillFailed(r.error.value)) else Settled.Settled(users[user := r.account])
  }

  /** One trade: the buyer's side, then the seller's. */
  function SettleOne(users: map<UserId, Account>, pair: TradingPair, bid: TradeInfo, ask: TradeInfo): Settled {
    var notional := Notional(bid.price, bid.quantity);
    if notional == None then Settled.Fault(NotionalOverflow)
    else
      var r := FillSide(users, bid.user, bid.orderId, pair.quote, notional.value, pair.base, bid.quantity);
      if r.Fault? then r
      else FillSide(r.users, ask.user, ask.orderId, pair.base, bid.quantity, pair.quote, notional.value)
  }

  /** The whole trade list, in order; the first fault stops it. */
  function Settle(users: map<UserId, Account>, pair: TradingPair, ms: seq<Match>): Settled
    decreases ms
  {
    if ms == [] then Settled.Settled(users)
    else
      var r := SettleOne(users, pair, ms[0].BidInfo(), ms[0].AskInfo());
      if r.Fault? then r else Settle(r.users, pair, ms[1..])
  }

  // ---- Orders ----

  function UnlockFor(users: map<UserId, Account>, user: UserId, id: OrderId): map<UserId, Account> {
    if user in users then users[user := Unlocked(users[user], id)] else users
  }

  /** From the lock on: match, settle, and release the lock of an order that cannot rest. A panic ends the
      engine, so the state beside it stands for nothing. */
  function ExecuteOn(s: State, pair: TradingPair, o: Order): (r: (State, Placed))
    requires pair in s.books
    ensures !r.1.Rejected?
  {
    var (book, r) := Add(s.books[pair], o);
    var s' := s.(books := s.books[pair := book]);
    match r
    case None => (s'.(users := UnlockFor(s.users, o.user, o.id)), NoTrades)
    case Some(ms) =>
      match Settle(s.users, pair, ms)
      case Fault(f) => (s, Panicked(f))
      case Settled(users) =>
        (s'.(users := if o.kind.FillAndKill? then UnlockFor(users, o.user, o.id) else users), Traded(ms))
  }

  ghost function AddOrder(s: State, pair: TradingPair, o: Order): (State, Placed) {
    if !ValidOrder(o.price, o.initial) then (s, Rejected(InvalidOrder))
    else if pair !in s.books then (s, Rejected(NoSuchPair))
    else if o.id in s.books[pair].index then (s, Rejected(InvalidOrder))
    else if LockAmount(o.side, o.price, o.initial) == None then (s, Rejected(InvalidOrder))
    else if o.user !in s.users then (s, Rejected(NoSuchUser))
    else
      var locked := LockedFor(s.users[o.user], o.id, LockAsset(pair, o.side),
            LockAmount(o.side, o.price, o.initial).value);
      if locked == None then (s, Rejected(InsufficientBalance))
      else ExecuteOn(s.(users := s.users[o.user := locked.value]), pair, o)
  }

  function CancelOrder(s: State, pair: TradingPair, id: OrderId): (State, bool) {
    if pair !in s.books then (s, false)
    else
      var (book, r) := Cancel(s.books[pair], id);
      if r == None then (s, false)
      else (State(s.books[pair := book], UnlockFor(s.users, r.value.user, id)), true)
  }

  function Replacement(before: Order, m: OrderModify, now: Timestamp): Order {
    NewOrder(m.id, before.kind, m.side, m.status, m.price, m.quantity, m.user, now)
  }

  /** The checks of a modify that precede any change; `None` means they pass. */
  ghost function ModifyRefused(s: State, pair: TradingPair, m: OrderModify): Option<OrderError> {
    if !ValidOrder(m.price, m.quantity) then Some(InvalidOrder)
    else if pair !in s.books then Some(NoSuchPair)
    else if m.id !in s.books[pair].index then Some(InvalidOrder)
    else
      var before := s.books[pair].index[m.id];
      if m.user != before.user || m.side != before.side then Some(InvalidOrder)
      else if LockAmount(m.side, m.price, m.quantity) == None then Some(InvalidOrder)
      else if before.user !in s.users then Some(NoSuchUser)
      else
        var a := s.users[before.user];
        var oldLocked := if m.id in a.locks then a.locks[m.id].amount else 0;
        if LockAmount(m.side, m.price, m.quantity).value > Available(a, LockAsset(pair, m.side)) + oldLocked
        then Some(InsufficientBalance) else None
  }

  /** Cancel, release the lock, lock anew, place again under the same id and with a fresh timestamp. */
  ghost function ModifyOrder(s: State, pair: TradingPair, m: OrderModify, now: Timestamp): (State, Placed) {
    if ModifyRefused(s, pair, m).Some? then (s, Rejected(ModifyRefused(s, pair, m).value))
    else
      var before := s.books[pair].index[m.id];
      var s1 := State(s.books[pair := Cancel(s.books[pair], m.id).0], UnlockFor(s.users, before.user, m.id));
      var locked := LockedFor(s1.users[before.user], m.id, LockAsset(pair, m.side),
            LockAmount(m.side, m.price, m.quantity).value);
      if locked == None then (s1, Rejected(InsufficientBalance))
      else ExecuteOn(s1.(users := s1.users[before.user := locked.value]), pair, Replacement(before, m, now))
  }

  // ---- Pairs and users ----

  function AddTradingPair(s: State, pair: TradingPair): State {
    if pair in s.books then s else s.(books := s.books[pair := EMPTY_BOOK])
  }

  /** Drops the book and releases the lock of each of its orders. */
  function RemoveTradingPair(s: State, pair: TradingPair): State {
    if pair !in s.books then s
    else State(s.books - {pair},
               map u | u in s.users :: s.users[u].(locks := s.users[u].locks - IdsOf(s.books[pair].index, u)))
  }

  function AddUser(s: State, user: UserId): State {
    if user in s.users then s else s.(users := s.users[user := EMPTY_ACCOUNT])
  }

  /** Cancels the user's orders in every book, then drops the account. */
  function RemoveUser(s: State, user: UserId): State {
    State(map p | p in s.books :: CancelUser(s.books[p], user), s.users - {user})
  }

  function DepositBalance(s: State, user: UserId, asset: Asset, quantity: Quantity): (State, Option<UserError>) {
    if user !in s.users then (s, Some(UnknownUser))
    else
      match Deposited(s.users[user], asset, quantity)
      case None => (s, Some(BalanceOverflow))
      case Some(a) => (s.(users := s.users[user := a]), None)
  }

  ghost function WithdrawBalance(s: State, user: UserId, asset: Asset, quantity: Quantity): (State, Option<UserError>) {
    if user !in s.users then (s, Some(UnknownUser))
    else
      match Withdrawn(s.users[user], asset, quantity)
      case None => (s, Some(InsufficientFunds))
      case Some(a) => (s.(users := s.users[user := a]), None)
  }
}
