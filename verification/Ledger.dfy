/** Where money comes from and goes to: totals per asset over all users. */
module Ledger {
  import opened Types
  import opened Levels
  import opened Soundness
  import opened OrderBooks
  import opened BookLaws
  import opened Users
  import opened Engine
  import opened Settlement
  import opened EngineLaws
  import opened Runs
  import opened Spread
  import opened Overflow

  /** The total of one asset over all users, in any order. */
  ghost function Total(users: map<UserId, Account>, asset: Asset): int
    decreases |users|
  {
    if users == map[] then 0 else var u :| u in users; users[u].Balance(asset) + Total(users - {u}, asset)
  }

  lemma {:induction false} TotalAny(users: map<UserId, Account>, u: UserId, asset: Asset)
    requires u in users
    ensures Total(users, asset) == users[u].Balance(asset) + Total(users - {u}, asset)
    decreases |users|
  {
    var first :| first in users && Total(users, asset) == users[first].Balance(asset) + Total(users - {first}, asset);
    if first != u {
      TotalAny(users - {first}, u, asset);
      TotalAny(users - {u}, first, asset);
      assert users - {first} - {u} == users - {u} - {first};
    }
  }

  /** Replacing one account moves the total by the difference of its balances. */
  lemma {:induction false} TotalPut(users: map<UserId, Account>, u: UserId, a: Account, asset: Asset)
    ensures Total(users[u := a], asset) == a.Balance(asset) + Total(users - {u}, asset)
    ensures Total(users, asset) == (if u in users then users[u].Balance(asset) else 0) + Total(users - {u}, asset)
  {
    TotalAny(users[u := a], u, asset);
    assert users[u := a] - {u} == users - {u};
    if u in users {
      TotalAny(users, u, asset);
    } else {
      assert users - {u} == users;
    }
  }

  lemma {:induction false} TotalSame(users: map<UserId, Account>, users': map<UserId, Account>, asset: Asset)
    requires users'.Keys == users.Keys && forall u :: u in users ==> users'[u].Balance(asset) == users[u].Balance(asset)
    ensures Total(users', asset) == Total(users, asset)
    decreases |users|
  {
    if u :| u in users {
      TotalAny(users, u, asset);
      TotalAny(users', u, asset);
      TotalSame(users - {u}, users' - {u}, asset);
    } else {
      assert users' == users;
    }
  }

  // ---- Settlement as written ----

  /** Base units and quote units that change hands in a trade list. */
  function BaseTraded(ms: seq<Match>): nat {
    if ms == [] then 0 else ms[0].quantity + BaseTraded(ms[1..])
  }

  function QuoteTraded(ms: seq<Match>): int {
    if ms == [] then 0 else ms[0].price * ms[0].quantity + QuoteTraded(ms[1..])
  }

  /** What settlement adds to the total of an asset: it credits both sides and debits neither balance. */
  function Created(pair: TradingPair, ms: seq<Match>, asset: Asset): int {
    (if asset == pair.base then BaseTraded(ms) else 0) + (if asset == pair.quote then QuoteTraded(ms) else 0)
  }

  lemma {:induction false} FillSideTotal(users: map<UserId, Account>, user: UserId, id: OrderId, debitAsset: Asset,
                                         debit: Quantity,
                                         creditAsset: Asset, credit: Quantity, asset: Asset)
    requires FillSide(users, user, id, debitAsset, debit, creditAsset, credit).Settled?
    ensures var users' := FillSide(users, user, id, debitAsset, debit, creditAsset, credit).users;
            Total(users', asset) == Total(users, asset) + (if asset == creditAsset then credit else 0)
  {
    TotalPut(users, user, AfterFill(users[user], id, debitAsset, debit, creditAsset, credit).account, asset);
  }

  lemma {:induction false} SettleOneTotal(users: map<UserId, Account>, pair: TradingPair, m: Match, asset: Asset)
    requires SettleOne(users, pair, m.BidInfo(), m.AskInfo()).Settled?
    ensures Total(SettleOne(users, pair, m.BidInfo(), m.AskInfo()).users, asset)
            == Total(users, asset) + Created(pair, [m], asset)
  {
    var notional := Notional(m.price, m.quantity).value;
    assert notional == m.price * m.quantity;
    assert BaseTraded([m]) == m.quantity + BaseTraded([m][1..])
           && QuoteTraded([m]) == m.price * m.quantity + QuoteTraded([m][1..]);
    var r := FillSide(users, m.bid.user, m.bid.id, pair.quote, notional, pair.base, m.quantity);
    FillSideTotal(users, m.bid.user, m.bid.id, pair.quote, notional, pair.base, m.quantity, asset);
    FillSideTotal(r.users, m.ask.user, m.ask.id, pair.base, m.quantity, pair.quote, notional, asset);
  }

  /** Any trade list that settles raises the total of the base asset by the quantity traded and that of the
      quote asset by the notional traded. */
  lemma {:induction false} SettleCreates(users: map<UserId, Account>, pair: TradingPair, ms: seq<Match>, asset: Asset)
    requires Settle(users, pair, ms).Settled?
    ensures Total(Settle(users, pair, ms).users, asset) == Total(users, asset) + Created(pair, ms, asset)
    decreases ms
  {
    if ms != [] {
      SettleOneTotal(users, pair, ms[0], asset);
      var r := SettleOne(users, pair, ms[0].BidInfo(), ms[0].AskInfo());
      SettleCreates(r.users, pair, ms[1..], asset);
      assert BaseTraded([ms[0]]) == ms[0].quantity + BaseTraded([ms[0]][1..]);
      assert QuoteTraded([ms[0]]) == ms[0].price * ms[0].quantity + QuoteTraded([ms[0]][1..]);
    }
  }

  lemma {:induction false} TradedPositive(live: set<Order>, ms: seq<Match>)
    requires LegalRun(live, ms)
    ensures BaseTraded(ms) >= |ms|
    decreases ms
  {
    if ms != [] {
      TradedPositive(Step(live, ms[0]), ms[1..]);
    }
  }

  /** The conservation the documentation promises holds of the code exactly when nothing was traded. */
  lemma {:induction false} ConservedIffNoTrades(users: map<UserId, Account>, pair: TradingPair, live: set<Order>,
                                                ms: seq<Match>)
    requires LegalRun(live, ms) && Settle(users, pair, ms).Settled?
    requires forall m :: m in ms ==> m.price > 0
    ensures (forall asset :: Total(Settle(users, pair, ms).users, asset) == Total(users, asset)) <==> ms == []
  {
    forall asset: Asset
      ensures Total(Settle(users, pair, ms).users, asset) == Total(users, asset) + Created(pair, ms, asset)
    {
      SettleCreates(users, pair, ms, asset);
    }
    TradedPositive(live, ms);
    QuoteNonNegative(ms);
    if ms != [] {
      var base := pair.base;
      assert Created(pair, ms, base) > 0;
      assert Total(Settle(users, pair, ms).users, base) != Total(users, base);
    }
  }

  lemma {:induction false} QuoteNonNegative(ms: seq<Match>)
    requires forall m :: m in ms ==> m.price > 0
    ensures QuoteTraded(ms) >= 0
    decreases ms
  {
    if ms != [] {
      assert ms[0] in ms && forall m :: m in ms[1..] ==> m in ms;
      QuoteNonNegative(ms[1..]);
      assert ms[0].price * ms[0].quantity >= 0;
    }
  }

  // ---- Settlement as intended ----

  /** A fill that also takes the debit out of the balance. */
  function IntendedFill(a: Account, id: OrderId, debitAsset: Asset, debit: Quantity, creditAsset: Asset,
                        credit: Quantity): FillResult {
    var r := AfterFill(a, id, debitAsset, debit, creditAsset, credit);
    if r.error.Some? || r.account.Balance(debitAsset) < debit then r
    else r.(account := r.account.(balances := r.account.balances[debitAsset := r.account.Balance(debitAsset) - debit]))
  }

  /** In a solvent account the intended debit is always covered, and the account stays solvent. */
  lemma {:induction false} IntendedFillLaw(a: Account, id: OrderId, debitAsset: Asset, debit: Quantity,
                                           creditAsset: Asset, credit: Quantity)
    requires Solvent(a) && AfterFill(a, id, debitAsset, debit, creditAsset, credit).error == None
    ensures var a' := IntendedFill(a, id, debitAsset, debit, creditAsset, credit).account;
            && Solvent(a')
            && a'.locks == AfterFill(a, id, debitAsset, debit, creditAsset, credit).account.locks
            && (forall asset :: a'.Balance(asset) == a.Balance(asset) + (if asset == creditAsset then credit else 0)
                                                                     - (if asset == debitAsset then debit else 0))
  {
    var r := AfterFill(a, id, debitAsset, debit, creditAsset, credit);
    var a' := IntendedFill(a, id, debitAsset, debit, creditAsset, credit).account;
    FillLaw(a, id, debitAsset, debit, creditAsset, credit);
    LockedSumAny(a.locks, id, debitAsset);
    assert debit <= LockedSum(a.locks, debitAsset) <= a.Balance(debitAsset) <= r.account.Balance(debitAsset);
    forall asset: Asset
      ensures LockedSum(a'.locks, asset) <= a'.Balance(asset)
    {
      assert LockedSum(a.locks, asset) <= a.Balance(asset);
    }
    assert Solvent(a');
  }

  function IntendedSide(users: map<UserId, Account>, user: UserId, id: OrderId, debitAsset: Asset, debit: Quantity,
                        creditAsset: Asset, credit: Quantity): Settled
  {
    if user !in users then Settled.Fault(UserMissing)
    else
      var r := IntendedFill(users[user], id, debitAsset, debit, creditAsset, credit);
      if r.error.Some? then Settled.Fault(FillFailed(r.error.value)) else Settled.Settled(users[user := r.account])
  }

  function IntendedOne(users: map<UserId, Account>, pair: TradingPair, m: Match): Settled {
    var notional := Notional(m.price, m.quantity);
    if notional == None then Settled.Fault(NotionalOverflow)
    else
      var r := IntendedSide(users, m.bid.user, m.bid.id, pair.quote, notional.value, pair.base, m.quantity);
      if r.Fault? then r
      else IntendedSide(r.users, m.ask.user, m.ask.id, pair.base, m.quantity, pair.quote, notional.value)
  }

  function IntendedSettle(users: map<UserId, Account>, pair: TradingPair, ms: seq<Match>): Settled
    decreases ms
  {
    if ms == [] then Settled.Settled(users)
    else
      var r := IntendedOne(users, pair, ms[0]);
      if r.Fault? then r else IntendedSettle(r.users, pair, ms[1..])
  }

  lemma {:induction false} IntendedSideTotal(users: map<UserId, Account>, user: UserId, id: OrderId,
                                             debitAsset: Asset, debit: Quantity,
                                             creditAsset: Asset, credit: Quantity)
    requires AllSolvent(users) && IntendedSide(users, user, id, debitAsset, debit, creditAsset, credit).Settled?
    ensures var users' := IntendedSide(users, user, id, debitAsset, debit, creditAsset, credit).users;
            && AllSolvent(users')
            && forall asset ::
                 Total(users', asset) == Total(users, asset) + (if asset == creditAsset then credit else 0)
                                                             - (if asset == debitAsset then debit else 0)
  {
    var a' := IntendedFill(users[user], id, debitAsset, debit, creditAsset, credit).account;
    IntendedFillLaw(users[user], id, debitAsset, debit, creditAsset, credit);
    forall asset: Asset
      ensures Total(users[user := a'], asset) == Total(users, asset) + (if asset == creditAsset then credit else 0)
                                                                     - (if asset == debitAsset then debit else 0)
    {
      TotalPut(users, user, a', asset);
    }
  }

  /** With the debit taken out of the balance as well, any trade list that settles conserves every asset. */
  lemma {:induction false} IntendedConserves(users: map<UserId, Account>, pair: TradingPair, ms: seq<Match>,
                                             asset: Asset)
    requires AllSolvent(users) && IntendedSettle(users, pair, ms).Settled?
    ensures AllSolvent(IntendedSettle(users, pair, ms).users)
    ensures Total(IntendedSettle(users, pair, ms).users, asset) == Total(users, asset)
    decreases ms
  {
    hide LockedSum, Solvent, IntendedSide;
    if ms != [] {
      var m := ms[0];
      var notional := Notional(m.price, m.quantity).value;
      var r := IntendedSide(users, m.bid.user, m.bid.id, pair.quote, notional, pair.base, m.quantity);
      IntendedSideTotal(users, m.bid.user, m.bid.id, pair.quote, notional, pair.base, m.quantity);
      IntendedSideTotal(r.users, m.ask.user, m.ask.id, pair.base, m.quantity, pair.quote, notional);
      IntendedConserves(IntendedOne(users, pair, m).users, pair, ms[1..], asset);
    }
  }

  // ---- Whole runs ----

  /** Money that enters or leaves the exchange with a command. */
  ghost function External(c: Command, r: Reply, asset: Asset): int {
    match c
    case Deposit(_, a, quantity) => if r == UserAnswer(None) && a == asset then quantity else 0
    case Withdrawal(_, a, quantity) => if r == UserAnswer(None) && a == asset then -(quantity as int) else 0
    case DropUser(_) =>
      if r.FinalBalances? && r.balances.Some? && asset in r.balances.value then -(r.balances.value[asset] as int) else 0
    case _ => 0
  }

  predicate TradesSome(r: Reply) {
    r.OrderPlaced? && r.placed.Traded? && r.placed.matches != []
  }

  /** What settlement creates with a command. */
  function CreatedBy(c: Command, r: Reply, asset: Asset): int {
    if (c.PlaceOrder? || c.Modifying?) && TradesSome(r) then Created(c.pair, r.placed.matches, asset) else 0
  }

  /** What one command adds to the total of an asset. */
  ghost function Flow(s: State, c: Command, r: Reply, asset: Asset): int {
    External(c, r, asset) + CreatedBy(c, r, asset)
  }

  lemma {:induction false} ExecuteTotal(s: State, pair: TradingPair, o: Order, asset: Asset)
    requires pair in s.books && !ExecuteOn(s, pair, o).1.Panicked?
    ensures var (s', r) := ExecuteOn(s, pair, o);
            Total(s'.users, asset) == Total(s.users, asset) + (if r.Traded? then Created(pair, r.matches, asset) else 0)
  {
    hide Add, Settle, Created;
    var (book, r) := Add(s.books[pair], o);
    var users := s.users;
    if r.Some? {
      SettleCreates(s.users, pair, r.value, asset);
      users := Settle(s.users, pair, r.value).users;
    }
    TotalSame(users, UnlockFor(users, o.user, o.id), asset);
  }

  lemma {:induction false} LockTotal(users: map<UserId, Account>, user: UserId, id: OrderId, lockAsset: Asset,
                                     amount: Quantity, asset: Asset)
    requires user in users && LockedFor(users[user], id, lockAsset, amount).Some?
    ensures Total(users[user := LockedFor(users[user], id, lockAsset, amount).value], asset) == Total(users, asset)
  {
    TotalSame(users, users[user := LockedFor(users[user], id, lockAsset, amount).value], asset);
  }

  lemma {:induction false} AddOrderTotal(s: State, pair: TradingPair, o: Order, asset: Asset)
    requires !AddOrder(s, pair, o).1.Panicked?
    ensures var (s', r) := AddOrder(s, pair, o);
            Total(s'.users, asset) == Total(s.users, asset) + (if r.Traded? then Created(pair, r.matches, asset) else 0)
  {
    hide ExecuteOn, Created, LockedFor;
    var amount := LockAmount(o.side, o.price, o.initial);
    if ValidOrder(o.price, o.initial) && pair in s.books && o.id !in s.books[pair].index && amount.Some?
      && o.user in s.users
       && LockedFor(s.users[o.user], o.id, LockAsset(pair, o.side), amount.value).Some? {
      LockTotal(s.users, o.user, o.id, LockAsset(pair, o.side), amount.value, asset);
      var a := LockedFor(s.users[o.user], o.id, LockAsset(pair, o.side), amount.value).value;
      ExecuteTotal(s.(users := s.users[o.user := a]), pair, o, asset);
    }
  }

  lemma {:induction false} ModifyTotal(s: State, pair: TradingPair, m: OrderModify, now: Timestamp, asset: Asset)
    requires !ModifyOrder(s, pair, m, now).1.Panicked?
    ensures var (s', r) := ModifyOrder(s, pair, m, now);
            Total(s'.users, asset) == Total(s.users, asset) + (if r.Traded? then Created(pair, r.matches, asset) else 0)
  {
    hide ExecuteOn, Created, LockedFor, Cancel, ValidOrder;
    if ModifyRefused(s, pair, m) == None {
      var before := s.books[pair].index[m.id];
      var s1 := State(s.books[pair := Cancel(s.books[pair], m.id).0], UnlockFor(s.users, before.user, m.id));
      TotalSame(s.users, s1.users, asset);
      var locked := LockedFor(s1.users[before.user], m.id, LockAsset(pair, m.side),
            LockAmount(m.side, m.price, m.quantity).value);
      if locked.Some? {
        LockTotal(s1.users, before.user, m.id, LockAsset(pair, m.side), LockAmount(m.side, m.price, m.quantity).value,
              asset);
        ExecuteTotal(s1.(users := s1.users[before.user := locked.value]), pair, Replacement(before, m, now), asset);
      }
    }
  }

  /** From any state, one command moves the total of an asset by deposits, withdrawals, the balance of a
      removed user, and what settlement creates; by nothing else. */
  lemma {:induction false} ExecTotal(s: State, c: Command, now: Timestamp, asset: Asset)
    requires !Exec(s, c, now).1.Faulty()
    ensures var (s', r) := Exec(s, c, now); Total(s'.users, asset) == Total(s.users, asset) + Flow(s, c, r, asset)
  {
    hide AddOrder, ModifyOrder, Created, CancelOrder, RemoveTradingPair, AddUser, RemoveUser, DepositBalance,
      WithdrawBalance, AddTradingPair;
    NoneCreated(c, asset);
    match c
    case AddPair(pair) => NoMoney(s, pair, asset);
    case RemovePair(pair) => NoMoney(s, pair, asset);
    case PlaceOrder(pair, order) => AddOrderTotal(s, pair, order, asset);
    case Cancelling(pair, id) => CancelTotal(s, pair, id, asset);
    case Modifying(pair, m) => ModifyTotal(s, pair, m, now, asset);
    case NewUser(user) => UserTotal(s, user, asset);
    case DropUser(user) => UserTotal(s, user, asset);
    case Deposit(user, a, quantity) => DepositTotal(s, user, a, quantity, asset);
    case Withdrawal(user, a, quantity) => WithdrawalTotal(s, user, a, quantity, asset);
  }

  lemma {:induction false} NoneCreated(c: Command, asset: Asset)
    ensures c.PlaceOrder? || c.Modifying? ==> Created(c.pair, [], asset) == 0
  {
  }

  lemma {:induction false} NoMoney(s: State, pair: TradingPair, asset: Asset)
    ensures AddTradingPair(s, pair).users == s.users
    ensures Total(RemoveTradingPair(s, pair).users, asset) == Total(s.users, asset)
  {
    TotalSame(s.users, RemoveTradingPair(s, pair).users, asset);
  }

  lemma {:induction false} CancelTotal(s: State, pair: TradingPair, id: OrderId, asset: Asset)
    ensures Total(CancelOrder(s, pair, id).0.users, asset) == Total(s.users, asset)
  {
    hide Cancel;
    TotalSame(s.users, CancelOrder(s, pair, id).0.users, asset);
  }

  lemma {:induction false} UserTotal(s: State, user: UserId, asset: Asset)
    ensures Total(AddUser(s, user).users, asset) == Total(s.users, asset)
    ensures Total(RemoveUser(s, user).users, asset)
         == Total(s.users, asset) - (if user in s.users then s.users[user].Balance(asset) else 0)
  {
    hide CancelUser;
    TotalPut(s.users, user, EMPTY_ACCOUNT, asset);
    if user !in s.users {
      assert s.users - {user} == s.users;
    }
  }

  lemma {:induction false} DepositTotal(s: State, user: UserId, a: Asset, quantity: Quantity, asset: Asset)
    ensures var (s', e) := DepositBalance(s, user, a, quantity);
            Total(s'.users, asset) == Total(s.users, asset) + (if e == None && a == asset then quantity else 0)
  {
    hide Total;
    if user in s.users && Deposited(s.users[user], a, quantity).Some? {
      TotalPut(s.users, user, Deposited(s.users[user], a, quantity).value, asset);
    }
  }

  lemma {:induction false} WithdrawalTotal(s: State, user: UserId, a: Asset, quantity: Quantity, asset: Asset)
    ensures var (s', e) := WithdrawBalance(s, user, a, quantity);
            Total(s'.users, asset) == Total(s.users, asset) - (if e == None && a == asset then quantity else 0)
  {
    hide Total, LockedSum;
    if user in s.users && Withdrawn(s.users[user], a, quantity).Some? {
      TotalPut(s.users, user, Withdrawn(s.users[user], a, quantity).value, asset);
    }
  }

  /** The flows of a run that has not panicked. */
  ghost function Flows(t: Run, cmds: seq<Command>, clock: nat -> Timestamp, asset: Asset): int
    decreases cmds
  {
    if cmds == [] || t.fault.Some? then 0
    else
      Flow(t.state, cmds[0], Exec(t.state, cmds[0], clock(|t.replies|)).1, asset)
      + Flows(Advance(t, cmds[0], clock(|t.replies|)), cmds[1..], clock, asset)
  }

  /** Over any run without a panic the total of an asset changes by its flows exactly. */
  lemma {:induction false} RunTotal(t: Run, cmds: seq<Command>, clock: nat -> Timestamp, asset: Asset)
    requires RunAll(t, cmds, clock).fault == None
    ensures Total(RunAll(t, cmds, clock).state.users, asset)
            == Total(t.state.users, asset) + Flows(t, cmds, clock, asset)
    decreases cmds
  {
    hide Exec, Flow, NextGains;
    if cmds != [] && t.fault == None {
      var now := clock(|t.replies|);
      var t1 := Advance(t, cmds[0], now);
      ExecTotal(t.state, cmds[0], now, asset);
      RunTotal(t1, cmds[1..], clock, asset);
    }
  }

  // ---- Conservation over runs, as the code has it ----

  /** Deposits less withdrawals and removed balances, over a run. */
  ghost function Externals(t: Run, cmds: seq<Command>, clock: nat -> Timestamp, asset: Asset): int
    decreases cmds
  {
    if cmds == [] || t.fault.Some? then 0
    else
      var now := clock(|t.replies|);
      External(cmds[0], Exec(t.state, cmds[0], now).1, asset)
        + Externals(Advance(t, cmds[0], now), cmds[1..], clock, asset)
  }

  /** What settlement creates over a run. */
  ghost function CreatedAll(t: Run, cmds: seq<Command>, clock: nat -> Timestamp, asset: Asset): int
    decreases cmds
  {
    if cmds == [] || t.fault.Some? then 0
    else
      var now := clock(|t.replies|);
      CreatedBy(cmds[0], Exec(t.state, cmds[0], now).1, asset)
        + CreatedAll(Advance(t, cmds[0], now), cmds[1..], clock, asset)
  }

  /** The run creates something, of some asset. */
  ghost predicate Creates(t: Run, cmds: seq<Command>, clock: nat -> Timestamp) {
    exists asset :: CreatedAll(t, cmds, clock, asset) > 0
  }

  /** The command does. */
  ghost predicate CreatesNow(c: Command, r: Reply) {
    exists asset :: CreatedBy(c, r, asset) > 0
  }

  lemma {:induction false} FlowsSplit(t: Run, cmds: seq<Command>, clock: nat -> Timestamp, asset: Asset)
    ensures Flows(t, cmds, clock, asset) == Externals(t, cmds, clock, asset) + CreatedAll(t, cmds, clock, asset)
    decreases cmds
  {
    hide Exec, Advance, External, CreatedBy;
    if cmds != [] && t.fault == None {
      FlowsSplit(Advance(t, cmds[0], clock(|t.replies|)), cmds[1..], clock, asset);
    }
  }

  lemma {:induction false} LegalPrices(live: set<Order>, ms: seq<Match>)
    requires LegalRun(live, ms) && forall o :: o in live ==> Sane(o)
    ensures forall m :: m in ms ==> m.price > 0
    decreases ms
  {
    if ms != [] {
      StepSane(live, ms[0]);
      LegalPrices(Step(live, ms[0]), ms[1..]);
      assert forall m :: m in ms ==> m == ms[0] || m in ms[1..];
    }
  }

  /** A legal run between sane orders creates money of the base asset if it is not empty, and never destroys any. */
  lemma {:induction false} LegalCreates(pair: TradingPair, live: set<Order>, ms: seq<Match>)
    requires LegalRun(live, ms) && forall o :: o in live ==> Sane(o)
    ensures forall asset :: Created(pair, ms, asset) >= 0
    ensures ms != [] ==> Created(pair, ms, pair.base) > 0
  {
    LegalPrices(live, ms);
    TradedPositive(live, ms);
    QuoteNonNegative(ms);
  }

  lemma {:induction false} PlacingCreates(s: State, g: Gains, pair: TradingPair, o: Order)
    requires Inv(s, g, Nothing) && AsNew(o) && AddOrder(s, pair, o).1.Traded?
    ensures var ms := AddOrder(s, pair, o).1.matches;
            && (forall asset :: Created(pair, ms, asset) >= 0)
            && (ms != [] ==> Created(pair, ms, pair.base) > 0)
  {
    hide Inv, AddOrder, Add, Book.Valid, LegalRun, After, Created, UniqueIds;
    BooksPlaced(s, pair, o);
    BookOf(s, g, pair);
    var _ := AddSound(s.books[pair], o);
    RestingSane(s, g, pair);
    ValidSane(o);
    LegalCreates(pair, s.books[pair].Orders() + {o}, AddOrder(s, pair, o).1.matches);
  }

  lemma {:induction false} ValidSane(o: Order)
    requires AsNew(o) && ValidOrder(o.price, o.initial)
    ensures Sane(o) && o.remaining > 0
  {
  }

  lemma {:induction false} RestingSane(s: State, g: Gains, pair: TradingPair)
    requires Inv(s, g, Nothing) && pair in s.books
    ensures forall o :: o in s.books[pair].Orders() ==> Sane(o)
  {
    hide AllSolvent, BooksApart, LocksKnown, Backed, Sane, Book.Valid, UniqueIds, OwnLocks;
    assert BookInv(s, g, Nothing, pair);
    LiveNothing(s, pair);
  }

  lemma {:induction false} ExecCreates(s: State, g: Gains, last: int, c: Command, now: Timestamp)
    requires Reachable(s, g, last) && Admissible(c, last)
    ensures var r := Exec(s, c, now).1;
            && (forall asset :: CreatedBy(c, r, asset) >= 0)
            && (TradesSome(r) ==> CreatesNow(c, r))
            && (!TradesSome(r) ==> forall asset :: CreatedBy(c, r, asset) == 0)
  {
    hide Inv, AddOrder, ModifyOrder, Created, CancelOrder, RemoveTradingPair, AddUser, RemoveUser, DepositBalance,
      WithdrawBalance, AddTradingPair, Fresh, ModifyRefused;
    var r := Exec(s, c, now).1;
    if TradesSome(r) {
      match c
      case PlaceOrder(pair, o) =>
        PlacingCreates(s, g, pair, o);
        assert CreatedBy(c, r, pair.base) > 0;
      case Modifying(pair, m) =>
        ModifyOrderLaw(s, g, pair, m, now);
        ModifyIsCancelThenAdd(s, g, pair, m, now);
        CancelOrderLaw(s, g, pair, m.id);
        PlacingCreates(CancelOrder(s, pair, m.id).0, g - {m.id}, pair, Replacement(s.books[pair].index[m.id], m, now));
        assert CreatedBy(c, r, pair.base) > 0;
    }
  }

  /** Some reply from the `from`-th on reports trades. */
  ghost predicate TradesFrom(replies: seq<Reply>, from: nat) {
    exists i :: from <= i < |replies| && TradesSome(replies[i])
  }

  lemma {:induction false} RepliesExtend(t: Run, cmds: seq<Command>, clock: nat -> Timestamp)
    ensures t.replies <= RunAll(t, cmds, clock).replies
    decreases cmds
  {
    hide Exec, NextGains;
    if cmds != [] && t.fault == None {
      RepliesExtend(Advance(t, cmds[0], clock(|t.replies|)), cmds[1..], clock);
    }
  }

  lemma {:induction false} CreatedIffTrades(t: Run, cmds: seq<Command>, clock: nat -> Timestamp)
    requires AllAdmissible(cmds, t.last) && RunAll(t, cmds, clock).fault == None
    requires t.fault == None ==> Reachable(t.state, t.gains, t.last)
    ensures forall asset :: CreatedAll(t, cmds, clock, asset) >= 0
    ensures TradesFrom(RunAll(t, cmds, clock).replies, |t.replies|)
            <==> Creates(t, cmds, clock)
    decreases cmds
  {
    hide Exec, Reachable, CreatedBy, TradesSome, NextGains;
    if cmds != [] && t.fault == None {
      var now := clock(|t.replies|);
      var t1, r := Advance(t, cmds[0], now), Exec(t.state, cmds[0], now).1;
      ExecLaw(t.state, t.gains, t.last, cmds[0], now);
      ExecCreates(t.state, t.gains, t.last, cmds[0], now);
      NotFaulty(t, cmds, clock);
      CreatedIffTrades(t1, cmds[1..], clock);
      RepliesExtend(t1, cmds[1..], clock);
      TradesSplit(t.replies, r, RunAll(t, cmds, clock).replies);
      CreatedSplit(t, cmds, clock);
    }
  }

  lemma {:induction false} NotFaulty(t: Run, cmds: seq<Command>, clock: nat -> Timestamp)
    requires cmds != [] && t.fault == None && RunAll(t, cmds, clock).fault == None
    ensures !Exec(t.state, cmds[0], clock(|t.replies|)).1.Faulty()
  {
    hide Exec, NextGains;
  }

  lemma {:induction false} TradesSplit(before: seq<Reply>, r: Reply, all: seq<Reply>)
    requires before + [r] <= all
    ensures TradesFrom(all, |before|) <==> TradesSome(r) || TradesFrom(all, |before| + 1)
  {
    assert all[|before|] == r;
  }

  lemma {:induction false} CreatedSplit(t: Run, cmds: seq<Command>, clock: nat -> Timestamp)
    requires cmds != [] && t.fault == None
    requires var now := clock(|t.replies|);
             && (forall asset :: CreatedBy(cmds[0], Exec(t.state, cmds[0], now).1, asset) >= 0)
             && (forall asset :: CreatedAll(Advance(t, cmds[0], now), cmds[1..], clock, asset) >= 0)
    ensures var now := clock(|t.replies|);
            Creates(t, cmds, clock) <==> || CreatesNow(cmds[0], Exec(t.state, cmds[0], now).1)
                                         || Creates(Advance(t, cmds[0], now), cmds[1..], clock)
  {
    hide Exec, Advance, CreatedBy;
    var now := clock(|t.replies|);
    forall asset: Asset
      ensures CreatedAll(t, cmds, clock, asset)
           == CreatedBy(cmds[0], Exec(t.state, cmds[0], now).1, asset)
             + CreatedAll(Advance(t, cmds[0], now), cmds[1..], clock, asset)
    {
      CreatedStep(t, cmds, clock, asset);
    }
    if Creates(t, cmds, clock) {
      var asset :| CreatedAll(t, cmds, clock, asset) > 0;
      if CreatedBy(cmds[0], Exec(t.state, cmds[0], now).1, asset) == 0 {
        assert CreatedAll(Advance(t, cmds[0], now), cmds[1..], clock, asset) > 0;
      }
    }
    if CreatesNow(cmds[0], Exec(t.state, cmds[0], now).1) {
      var asset :| CreatedBy(cmds[0], Exec(t.state, cmds[0], now).1, asset) > 0;
      assert CreatedAll(t, cmds, clock, asset) > 0;
    }
    if Creates(Advance(t, cmds[0], now), cmds[1..], clock) {
      var asset :| CreatedAll(Advance(t, cmds[0], now), cmds[1..], clock, asset) > 0;
      assert CreatedAll(t, cmds, clock, asset) > 0;
    }
  }

  lemma {:induction false} CreatedStep(t: Run, cmds: seq<Command>, clock: nat -> Timestamp, asset: Asset)
    requires cmds != [] && t.fault == None
    ensures CreatedAll(t, cmds, clock, asset)
         == CreatedBy(cmds[0], Exec(t.state, cmds[0], clock(|t.replies|)).1, asset)
           + CreatedAll(Advance(t, cmds[0], clock(|t.replies|)), cmds[1..], clock, asset)
  {
    hide Exec, Advance, CreatedBy;
  }

  /** Every total is what the commands have brought in less what they have taken out. */
  ghost predicate Conserved(users: map<UserId, Account>, cmds: seq<Command>, clock: nat -> Timestamp) {
    forall asset :: Total(users, asset) == Externals(START, cmds, clock, asset)
  }

  /** Over any admissible run without a panic, money is conserved exactly if no order of the run has traded. */
  lemma {:induction false} RunConservedIff(cmds: seq<Command>, clock: nat -> Timestamp)
    requires AllAdmissible(cmds, -1) && RunAll(START, cmds, clock).fault == None
    ensures var t := RunAll(START, cmds, clock); Conserved(t.state.users, cmds, clock) <==> !TradesFrom(t.replies, 0)
  {
    hide RunAll, Reachable, Flows, AllAdmissible, TradesFrom;
    var users := RunAll(START, cmds, clock).state.users;
    NothingYet();
    StartTrades(cmds, clock);
    forall asset: Asset
      ensures Total(users, asset) == Externals(START, cmds, clock, asset) + CreatedAll(START, cmds, clock, asset)
    {
      RunTotal(START, cmds, clock, asset);
      FlowsSplit(START, cmds, clock, asset);
    }
    if asset :| CreatedAll(START, cmds, clock, asset) > 0 {
      assert Total(users, asset) != Externals(START, cmds, clock, asset);
      assert !Conserved(users, cmds, clock);
      assert Creates(START, cmds, clock);
      assert TradesFrom(RunAll(START, cmds, clock).replies, 0);
    } else {
      forall asset: Asset
        ensures Total(users, asset) == Externals(START, cmds, clock, asset)
      {
        assert CreatedAll(START, cmds, clock, asset) == 0;
      }
    }
  }

  lemma {:induction false} StartTrades(cmds: seq<Command>, clock: nat -> Timestamp)
    requires AllAdmissible(cmds, -1) && RunAll(START, cmds, clock).fault == None
    ensures forall asset :: CreatedAll(START, cmds, clock, asset) >= 0
    ensures TradesFrom(RunAll(START, cmds, clock).replies, 0)
            <==> Creates(START, cmds, clock)
  {
    hide RunAll, Reachable, CreatedAll, AllAdmissible, TradesSome;
    StartReachable();
    var t := START;
    CreatedIffTrades(t, cmds, clock);
    assert |t.replies| == 0;
  }

  lemma {:induction false} NothingYet()
    ensures |START.replies| == 0 && START.fault == None && START.last == -1
    ensures forall asset :: Total(START.state.users, asset) == 0
    ensures START.state == NEW_ENGINE && START.gains == map[]
  {
  }
}
