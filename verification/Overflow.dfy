/** The one way settlement panics, and exactly when. */
module Overflow {
  import opened Types
  import opened Levels
  import opened Soundness
  import opened Users
  import opened Engine
  import opened Settlement

  /** What a trade list credits to `user` in `asset`. */
  function Credited(pair: TradingPair, ms: seq<Match>, user: UserId, asset: Asset): int {
    if ms == [] then 0
    else
      (if ms[0].bid.user == user && asset == pair.base then ms[0].quantity else 0)
      + (if ms[0].ask.user == user && asset == pair.quote then ms[0].price * ms[0].quantity else 0)
      + Credited(pair, ms[1..], user, asset)
  }

  ghost predicate Overflows(users: map<UserId, Account>, pair: TradingPair, ms: seq<Match>, user: UserId,
                            asset: Asset) {
    user in users && users[user].Balance(asset) + Credited(pair, ms, user, asset) > U32_MAX
  }

  /** Some party's balance has no room for all that the list credits it. */
  ghost predicate SomeOverflow(users: map<UserId, Account>, pair: TradingPair, ms: seq<Match>) {
    exists user, asset :: Overflows(users, pair, ms, user, asset)
  }

  lemma {:induction false} FillSideExact(users: map<UserId, Account>, user: UserId, id: OrderId, debitAsset: Asset,
                                         debit: Quantity,
                                         creditAsset: Asset, credit: Quantity)
    requires user in users && id in users[user].locks && users[user].locks[id].asset == debitAsset
    requires debit <= users[user].locks[id].amount
    ensures var r := FillSide(users, user, id, debitAsset, debit, creditAsset, credit);
            && (r.Fault? <==> users[user].Balance(creditAsset) + credit > U32_MAX)
            && (r.Settled? ==>
                  && r.users.Keys == users.Keys
                  && forall u, asset :: u in users ==>
                       r.users[u].Balance(asset)
                         == users[u].Balance(asset) + (if u == user && asset == creditAsset then credit else 0))
  {
  }

  lemma {:induction false} SettleOneExact(users: map<UserId, Account>, pair: TradingPair, m: Match, g: Gains)
    requires LegalMatch(m) && Sane(m.bid) && Sane(m.ask) && m.bid.id != m.ask.id
    requires Backed(users, pair, m.bid, g) && Backed(users, pair, m.ask, g)
    ensures var r := SettleOne(users, pair, m.BidInfo(), m.AskInfo());
            && (r.Fault? <==> users[m.bid.user].Balance(pair.base) + m.quantity > U32_MAX
                              || users[m.ask.user].Balance(pair.quote) + m.price * m.quantity > U32_MAX)
            && (r.Settled? ==>
                  && r.users.Keys == users.Keys
                  && forall u, asset :: u in users ==>
                       r.users[u].Balance(asset) == users[u].Balance(asset) + Credited(pair, [m], u, asset))
  {
    hide FillSide, Notional, Sane, GainOne;
    var notional := DueFalls(m, g);
    var r1 := FillSide(users, m.bid.user, m.bid.id, pair.quote, notional, pair.base, m.quantity);
    FillSideExact(users, m.bid.user, m.bid.id, pair.quote, notional, pair.base, m.quantity);
    if r1.Settled? {
      OtherSideLocks(users, pair, m, notional, r1.users);
      FillSideExact(r1.users, m.ask.user, m.ask.id, pair.base, m.quantity, pair.quote, notional);
      assert [m][1..] == [];
    }
  }

  lemma {:induction false} OtherSideLocks(users: map<UserId, Account>, pair: TradingPair, m: Match,
                                          notional: Quantity, users1: map<UserId, Account>)
    requires FillSide(users, m.bid.user, m.bid.id, pair.quote, notional, pair.base, m.quantity)
             == Settled.Settled(users1)
    requires m.bid.user != m.ask.user && m.ask.user in users
    ensures m.ask.user in users1 && users1[m.ask.user] == users[m.ask.user]
  {
  }

  lemma {:induction false} CreditedSplit(pair: TradingPair, ms: seq<Match>, user: UserId, asset: Asset)
    requires ms != []
    ensures Credited(pair, ms, user, asset)
            == Credited(pair, [ms[0]], user, asset) + Credited(pair, ms[1..], user, asset)
  {
    assert [ms[0]][1..] == [];
  }

  lemma {:induction false} CreditedNotNegative(pair: TradingPair, live: set<Order>, ms: seq<Match>, user: UserId,
                                               asset: Asset)
    requires LegalRun(live, ms) && forall o :: o in live ==> Sane(o)
    ensures Credited(pair, ms, user, asset) >= 0
    decreases ms
  {
    if ms != [] {
      StepSane(live, ms[0]);
      NotionalFits(ms[0]);
      CreditedNotNegative(pair, Step(live, ms[0]), ms[1..], user, asset);
    }
  }

  lemma {:induction false} StepSane(live: set<Order>, m: Match)
    requires m.bid in live && m.ask in live && LegalMatch(m) && forall o :: o in live ==> Sane(o)
    ensures forall o :: o in Step(live, m) ==> Sane(o)
  {
    FillsKeep(m.bid, m.quantity);
    FillsKeep(m.ask, m.quantity);
  }

  /** Settlement of a legal run panics exactly when some party's balance plus everything the list credits it
      exceeds a `Quantity`: balances are never debited on the way, so the order of the trades is irrelevant. */
  lemma {:induction false} PanicsIffOverflow(users: map<UserId, Account>, pair: TradingPair, live: set<Order>,
                                             g: Gains, ms: seq<Match>)
    requires Settling(users, pair, live, g) && LegalRun(live, ms)
    ensures Settle(users, pair, ms).Fault? <==> SomeOverflow(users, pair, ms)
    decreases ms
  {
    hide SettleOne, AllSolvent, Credited;
    if ms == [] {
      NothingCredited(users, pair);
    } else {
      var m := ms[0];
      var r := SettleOne(users, pair, m.BidInfo(), m.AskInfo());
      SettleOneLaw(users, pair, live, g, m);
      DistinctIds(live, m);
      SettleOneExact(users, pair, m, g);
      if r.Fault? {
        OverflowsAtOnce(users, pair, live, ms);
      } else {
        PanicsIffOverflow(r.users, pair, Step(live, m), GainOne(g, m), ms[1..]);
        SameOverflow(users, r.users, pair, ms);
      }
    }
  }

  /** Settlement that succeeds credits every user exactly that, in every asset, and changes no balance otherwise. */
  lemma {:induction false} SettleCredits(users: map<UserId, Account>, pair: TradingPair, live: set<Order>, g: Gains,
                                         ms: seq<Match>)
    requires Settling(users, pair, live, g) && LegalRun(live, ms) && Settle(users, pair, ms).Settled?
    ensures var users' := Settle(users, pair, ms).users;
            && users'.Keys == users.Keys
            && forall u, asset :: u in users ==>
                 users'[u].Balance(asset) == users[u].Balance(asset) + Credited(pair, ms, u, asset)
    decreases ms
  {
    hide SettleOne, AllSolvent, Credited, LegalMatch, GainOne;
    if ms == [] {
      NoCredit(pair);
    } else {
      var m := ms[0];
      var r := SettleOne(users, pair, m.BidInfo(), m.AskInfo());
      SettleOneLaw(users, pair, live, g, m);
      DistinctIds(live, m);
      SettleOneExact(users, pair, m, g);
      SettleCredits(r.users, pair, Step(live, m), GainOne(g, m), ms[1..]);
      forall u: UserId, asset: Asset
        ensures Credited(pair, ms, u, asset) == Credited(pair, [m], u, asset) + Credited(pair, ms[1..], u, asset)
      {
        CreditedSplit(pair, ms, u, asset);
      }
    }
  }

  lemma {:induction false} NoCredit(pair: TradingPair)
    ensures forall u, asset :: Credited(pair, [], u, asset) == 0
  {
  }

  lemma {:induction false} DistinctIds(live: set<Order>, m: Match)
    requires UniqueIds(live) && m.bid in live && m.ask in live && LegalMatch(m)
    ensures m.bid.id != m.ask.id
  {
  }

  lemma {:induction false} NothingCredited(users: map<UserId, Account>, pair: TradingPair)
    ensures !SomeOverflow(users, pair, [])
  {
  }

  lemma {:induction false} OverflowsAtOnce(users: map<UserId, Account>, pair: TradingPair, live: set<Order>,
                                           ms: seq<Match>)
    requires ms != [] && LegalRun(live, ms) && (forall o :: o in live ==> Sane(o))
    requires ms[0].bid.user in users && ms[0].ask.user in users
    requires users[ms[0].bid.user].Balance(pair.base) + ms[0].quantity > U32_MAX
             || users[ms[0].ask.user].Balance(pair.quote) + ms[0].price * ms[0].quantity > U32_MAX
    ensures SomeOverflow(users, pair, ms)
  {
    var m := ms[0];
    NotionalFits(m);
    StepSane(live, m);
    if users[m.bid.user].Balance(pair.base) + m.quantity > U32_MAX {
      CreditedNotNegative(pair, Step(live, m), ms[1..], m.bid.user, pair.base);
      assert Overflows(users, pair, ms, m.bid.user, pair.base);
    } else {
      CreditedNotNegative(pair, Step(live, m), ms[1..], m.ask.user, pair.quote);
      assert Overflows(users, pair, ms, m.ask.user, pair.quote);
    }
  }

  lemma {:induction false} SameOverflow(users: map<UserId, Account>, users1: map<UserId, Account>, pair: TradingPair,
                                        ms: seq<Match>)
    requires ms != [] && users1.Keys == users.Keys
    requires forall u, asset :: u in users ==>
               users1[u].Balance(asset) == users[u].Balance(asset) + Credited(pair, [ms[0]], u, asset)
    ensures SomeOverflow(users1, pair, ms[1..]) <==> SomeOverflow(users, pair, ms)
  {
    hide Credited;
    forall u: UserId, asset: Asset
      ensures Overflows(users1, pair, ms[1..], u, asset) <==> Overflows(users, pair, ms, u, asset)
    {
      CreditedSplit(pair, ms, u, asset);
    }
  }
}
