/** Settlement of a legal run never fails but for the overflow of a credit, and moves each lock exactly. */
module Settlement {
  import opened Types
  import opened Levels
  import opened Soundness
  import opened OrderBooks
  import opened Users
  import opened Engine

  /** Price improvement kept in the locks of buy orders, by order. */
  type Gains = map<OrderId, nat>

  function Gain(g: Gains, id: OrderId): nat {
    if id in g then g[id] else 0
  }

  /** A fill below a buy's limit leaves the difference in its lock. */
  function GainOne(g: Gains, m: Match): Gains {
    if m.price <= m.bid.price then
      assert (m.bid.price - m.price) * m.quantity >= 0;
      g[m.bid.id := Gain(g, m.bid.id) + (m.bid.price - m.price) * m.quantity]
    else g
  }

  function GainAll(g: Gains, ms: seq<Match>): Gains
    decreases ms
  {
    if ms == [] then g else GainAll(GainOne(g, ms[0]), ms[1..])
  }

  /** What the engine's validation guarantees of an order. */
  predicate Sane(o: Order) {
    o.price > 0 && o.remaining <= o.initial && o.price * o.initial <= U32_MAX
  }

  /** What order `o` needs locked: a sell its remainder, a buy its remainder at the limit price plus the
      improvement of its fills so far. */
  function Due(o: Order, g: Gains): int {
    if o.side.Buy? then o.price * o.remaining + Gain(g, o.id) else o.remaining
  }

  ghost predicate Backed(users: map<UserId, Account>, pair: TradingPair, o: Order, g: Gains) {
    && o.user in users && o.id in users[o.user].locks
    && users[o.user].locks[o.id].asset == LockAsset(pair, o.side)
    && users[o.user].locks[o.id].amount == Due(o, g)
  }

  ghost predicate AllBacked(users: map<UserId, Account>, pair: TradingPair, live: set<Order>, g: Gains) {
    forall o :: o in live ==> Sane(o) && Backed(users, pair, o, g)
  }

  ghost predicate AllSolvent(users: map<UserId, Account>) {
    forall u :: u in users ==> Solvent(users[u])
  }

  predicate SameLock(a: Account, b: Account, id: OrderId) {
    (id in a.locks <==> id in b.locks) && (id in a.locks ==> a.locks[id] == b.locks[id])
  }

  /** Only locks under `ids` may differ, and none of them is new. */
  ghost predicate LocksOutside(users: map<UserId, Account>, users': map<UserId, Account>, ids: set<OrderId>) {
    && users'.Keys == users.Keys
    && (forall u :: u in users ==> users'[u].locks.Keys <= users[u].locks.Keys)
    && (forall u, id {:trigger SameLock(users[u], users'[u], id)} :: u in users && id !in ids ==>
           SameLock(users[u], users'[u], id))
  }

  // ---- One side of one fill ----

  /** A debit within what a lock holds can only fail on the credit; the lock shrinks by exactly the debit and
      disappears when nothing of it is left. */
  lemma {:induction false} FillSideLaw(users: map<UserId, Account>, user: UserId, id: OrderId, debitAsset: Asset,
                                       debit: Quantity,
                                       creditAsset: Asset, credit: Quantity)
    requires user in users && id in users[user].locks && users[user].locks[id].asset == debitAsset
    requires debit <= users[user].locks[id].amount && AllSolvent(users)
    ensures var r := FillSide(users, user, id, debitAsset, debit, creditAsset, credit);
            var left := users[user].locks[id].amount - debit;
            && (r.Fault? ==> r.fault == FillFailed(CreditOverflow))
            && (r.Settled? ==>
                  && AllSolvent(r.users) && LocksOutside(users, r.users, {id})
                  && (forall u :: u in users && u != user ==> r.users[u] == users[u])
                  && (id in r.users[user].locks <==> left > 0)
                  && (left > 0 ==> r.users[user].locks[id] == LockEntry(debitAsset, left)))
  {
    hide LockedSum, Solvent;
    FillLaw(users[user], id, debitAsset, debit, creditAsset, credit);
    var r := FillSide(users, user, id, debitAsset, debit, creditAsset, credit);
    if r.Settled? {
      forall u, i {:trigger SameLock(users[u], r.users[u], i)} | u in users && i !in {id}
        ensures SameLock(users[u], r.users[u], i)
      {
      }
    }
  }

  // ---- One match ----

  lemma {:induction false} MulMono(a: int, b: int, c: int, d: int)
    requires 0 <= a <= b && 0 <= c <= d
    ensures 0 <= a * c <= b * d
  {
    assert a * c <= b * c <= b * d;
  }

  /** The notional of a legal match of sane orders fits, and is covered by the bid's remainder at its limit. */
  lemma {:induction false} NotionalFits(m: Match)
    requires LegalMatch(m) && Sane(m.bid) && Sane(m.ask)
    ensures Notional(m.price, m.quantity) == Some(m.price * m.quantity)
    ensures m.price * m.quantity <= m.bid.price * m.bid.remaining
    ensures m.bid.price * m.bid.remaining - m.price * m.quantity
         == m.bid.price * (m.bid.remaining - m.quantity) + (m.bid.price - m.price) * m.quantity
    ensures m.bid.price * (m.bid.remaining - m.quantity) == 0 <==> m.bid.remaining == m.quantity
  {
    LegalBounds(m);
    MulMono(m.price, m.bid.price, m.quantity, m.bid.remaining);
    MulMono(m.bid.price, m.bid.price, m.bid.remaining, m.bid.initial);
    NotionalIs(m.price, m.quantity);
    Improvement(m.price, m.bid.price, m.quantity, m.bid.remaining);
    MulZero(m.bid.price, m.bid.remaining - m.quantity);
  }

  lemma {:induction false} LegalBounds(m: Match)
    requires LegalMatch(m) && Sane(m.bid) && Sane(m.ask)
    ensures 0 < m.price <= m.bid.price && 0 < m.quantity <= m.bid.remaining <= m.bid.initial
    ensures m.bid.price * m.bid.initial <= U32_MAX
  {
  }

  lemma {:induction false} NotionalIs(price: Price, quantity: Quantity)
    requires price > 0 && quantity > 0 && price * quantity <= U32_MAX
    ensures Notional(price, quantity) == Some(price * quantity)
  {
  }

  /** Buying `k` of `n` at `p` instead of `limit` leaves the rest at the limit, and the improvement. */
  lemma {:induction false} Improvement(p: int, limit: int, k: int, n: int)
    ensures limit * n - p * k == limit * (n - k) + (limit - p) * k
  {
    assert limit * (n - k) == limit * n - limit * k;
    assert (limit - p) * k == limit * k - p * k;
  }

  lemma {:induction false} MulZero(x: int, y: int)
    requires x > 0
    ensures x * y == 0 <==> y == 0
  {
  }

  /** The state of one book's settlement: who is live, what they have locked. */
  ghost predicate Settling(users: map<UserId, Account>, pair: TradingPair, live: set<Order>, g: Gains) {
    UniqueIds(live) && AllBacked(users, pair, live, g) && AllSolvent(users)
  }

  /** The orders of `live` not in the match are backed as before. */
  lemma {:induction false} OthersBacked(users: map<UserId, Account>, users': map<UserId, Account>, pair: TradingPair,
                                        live: set<Order>, g: Gains, m: Match, o: Order)
    requires AllBacked(users, pair, live, g) && o in live && o.id != m.bid.id && o.id != m.ask.id
    requires LocksOutside(users, users', {m.bid.id, m.ask.id})
    ensures Sane(o) && Backed(users', pair, o, GainOne(g, m))
  {
    assert Backed(users, pair, o, g) && Sane(o);
    assert SameLock(users[o.user], users'[o.user], o.id);
    assert Gain(GainOne(g, m), o.id) == Gain(g, o.id);
  }

  /** Both locks of a legal match after it settles, each shrunk to what its order still needs. */
  ghost predicate BothShrunk(users': map<UserId, Account>, pair: TradingPair, m: Match, g': Gains) {
    && m.bid.user in users' && m.ask.user in users'
    && HoldsLock(users'[m.bid.user], m.bid.id, pair.quote, Due(m.bid.Fills(m.quantity), g'))
    && HoldsLock(users'[m.ask.user], m.ask.id, pair.base, m.ask.remaining - m.quantity)
  }

  /** What the buyer pays fits, and is exactly what his order then needs less. */
  lemma {:induction false} DueFalls(m: Match, g: Gains) returns (notional: Quantity)
    requires LegalMatch(m) && Sane(m.bid) && Sane(m.ask)
    ensures Notional(m.price, m.quantity) == Some(notional) && notional == m.price * m.quantity
    ensures Due(m.bid.Fills(m.quantity), GainOne(g, m)) == Due(m.bid, g) - notional >= 0
    ensures Due(m.ask, g) == m.ask.remaining
  {
    NotionalFits(m);
    FillsKeep(m.bid, m.quantity);
    notional := m.price * m.quantity;
  }

  ghost predicate HoldsLock(a: Account, id: OrderId, asset: Asset, amount: int) {
    && (id in a.locks <==> amount > 0)
    && (amount > 0 ==> a.locks[id].asset == asset && a.locks[id].amount == amount)
  }

  /** Debiting two users in turn. */
  lemma {:induction false} TwoSides(users: map<UserId, Account>, pair: TradingPair, bid: TradeInfo, ask: TradeInfo,
                                    notional: Quantity)
    requires bid.user != ask.user && bid.user in users && ask.user in users && bid.orderId != ask.orderId
             && AllSolvent(users)
    requires bid.orderId in users[bid.user].locks && users[bid.user].locks[bid.orderId].asset == pair.quote
    requires ask.orderId in users[ask.user].locks && users[ask.user].locks[ask.orderId].asset == pair.base
    requires notional <= users[bid.user].locks[bid.orderId].amount
             && bid.quantity <= users[ask.user].locks[ask.orderId].amount
    requires Notional(bid.price, bid.quantity) == Some(notional)
    ensures var r := SettleOne(users, pair, bid, ask);
            && (r.Fault? ==> r.fault == FillFailed(CreditOverflow))
            && (r.Settled? ==>
                  && AllSolvent(r.users) && LocksOutside(users, r.users, {bid.orderId, ask.orderId})
                  && HoldsLock(r.users[bid.user], bid.orderId, pair.quote,
                         users[bid.user].locks[bid.orderId].amount - notional)
                  && HoldsLock(r.users[ask.user], ask.orderId, pair.base,
                         users[ask.user].locks[ask.orderId].amount - bid.quantity))
  {
    hide FillSide, Notional, AllSolvent;
    var r1 := FillSide(users, bid.user, bid.orderId, pair.quote, notional, pair.base, bid.quantity);
    FillSideLaw(users, bid.user, bid.orderId, pair.quote, notional, pair.base, bid.quantity);
    if r1.Settled? {
      var r := FillSide(r1.users, ask.user, ask.orderId, pair.base, bid.quantity, pair.quote, notional);
      FillSideLaw(r1.users, ask.user, ask.orderId, pair.base, bid.quantity, pair.quote, notional);
      if r.Settled? {
        LocksCompose(users, r1.users, r.users, bid.orderId, ask.orderId);
      }
    }
  }

  lemma {:induction false} SettleOneLocks(users: map<UserId, Account>, pair: TradingPair, m: Match, g: Gains)
    requires LegalMatch(m) && Sane(m.bid) && Sane(m.ask) && m.bid.id != m.ask.id
    requires Backed(users, pair, m.bid, g) && Backed(users, pair, m.ask, g) && AllSolvent(users)
    ensures var r := SettleOne(users, pair, m.BidInfo(), m.AskInfo());
            && (r.Fault? ==> r.fault == FillFailed(CreditOverflow))
            && (r.Settled? ==> AllSolvent(r.users) && LocksOutside(users, r.users, {m.bid.id, m.ask.id})
                               && BothShrunk(r.users, pair, m, GainOne(g, m)))
  {
    hide SettleOne, Notional, AllSolvent, GainOne, Due, Sane;
    var notional := DueFalls(m, g);
    TwoSides(users, pair, m.BidInfo(), m.AskInfo(), notional);
  }

  lemma {:induction false} LocksCompose(a: map<UserId, Account>, b: map<UserId, Account>, c: map<UserId, Account>,
                                        i: OrderId, j: OrderId)
    requires LocksOutside(a, b, {i}) && LocksOutside(b, c, {j})
    ensures LocksOutside(a, c, {i, j})
  {
    forall u, id | u in a && id !in {i, j}
      ensures SameLock(a[u], c[u], id)
    {
      assert SameLock(a[u], b[u], id) && SameLock(b[u], c[u], id);
    }
  }

  lemma {:induction false} FillsKeep(o: Order, k: Quantity)
    ensures var f := o.Fills(k);
            f.id == o.id && f.price == o.price && f.side == o.side && f.user == o.user && f.initial == o.initial
  {
  }

  /** One legal match settles, up to overflow of a credit, and leaves every order still live exactly backed. */
  lemma {:induction false} SettleOneLaw(users: map<UserId, Account>, pair: TradingPair, live: set<Order>, g: Gains,
                                        m: Match)
    requires Settling(users, pair, live, g) && m.bid in live && m.ask in live && LegalMatch(m)
    ensures var r := SettleOne(users, pair, m.BidInfo(), m.AskInfo());
            && (r.Fault? ==> r.fault == FillFailed(CreditOverflow))
            && (r.Settled? ==> Settling(r.users, pair, Step(live, m), GainOne(g, m))
                               && LocksOutside(users, r.users, {m.bid.id, m.ask.id})
                               && BothShrunk(r.users, pair, m, GainOne(g, m)))
  {
    var r := SettleOne(users, pair, m.BidInfo(), m.AskInfo());
    StepKeepsUnique(live, m);
    assert m.bid.id != m.ask.id;
    SettleOneLocks(users, pair, m, g);
    if r.Settled? {
      forall o | o in Step(live, m)
        ensures Sane(o) && Backed(r.users, pair, o, GainOne(g, m))
      {
        if o in live && o != m.bid && o != m.ask {
          OthersBacked(users, r.users, pair, live, g, m, o);
        } else {
          StepBacked(r.users, pair, m, GainOne(g, m), o);
        }
      }
    }
  }

  lemma {:induction false} StepBacked(users': map<UserId, Account>, pair: TradingPair, m: Match, g': Gains, o: Order)
    requires LegalMatch(m) && Sane(m.bid) && Sane(m.ask) && BothShrunk(users', pair, m, g')
    requires o in Kept(m.bid.Fills(m.quantity)) + Kept(m.ask.Fills(m.quantity))
    ensures Sane(o) && Backed(users', pair, o, g')
  {
    var was := if o == m.bid.Fills(m.quantity) then m.bid else m.ask;
    SameTaker(was, o);
    assert o.Fixed().initial == was.Fixed().initial;
    if o.side.Buy? {
      MulMono(1, o.price, 1, o.remaining);
    }
  }

  // ---- The whole trade list ----

  /** Locks left under the ids of orders no longer live hold exactly the improvement those orders gained. */
  ghost predicate OnlyGainsLeft(users: map<UserId, Account>, ids: set<OrderId>, g: Gains) {
    forall u, id :: u in users && id in ids && id in users[u].locks ==> users[u].locks[id].amount == Gain(g, id)
  }

  /** Each lock under one of `live`'s ids belongs to that order's user. */
  ghost predicate OwnLocks(users: map<UserId, Account>, live: set<Order>) {
    forall u, o :: u in users && o in live && o.id in users[u].locks ==> o.user == u
  }

  lemma {:induction false} GainsOutside(g: Gains, ms: seq<Match>, live: set<Order>, id: OrderId)
    requires LegalRun(live, ms) && UniqueIds(live) && id !in Ids(live)
    ensures Gain(GainAll(g, ms), id) == Gain(g, id)
    decreases ms
  {
    if ms != [] {
      assert ms[0].bid.id in Ids(live);
      StepKeepsUnique(live, ms[0]);
      GainsOutside(GainOne(g, ms[0]), ms[1..], Step(live, ms[0]), id);
    }
  }

  lemma {:induction false} LocksWiden(a: map<UserId, Account>, b: map<UserId, Account>, c: map<UserId, Account>,
                                      i: set<OrderId>, j: set<OrderId>, ids: set<OrderId>)
    requires LocksOutside(a, b, i) && LocksOutside(b, c, j) && i <= ids && j <= ids
    ensures LocksOutside(a, c, ids)
  {
    forall u, id | u in a && id !in ids
      ensures SameLock(a[u], c[u], id)
    {
      assert SameLock(a[u], b[u], id) && SameLock(b[u], c[u], id);
    }
  }

  /** What settling `ms` does to the users when it succeeds. */
  ghost predicate SettledInto(users: map<UserId, Account>, users': map<UserId, Account>, pair: TradingPair,
                              live: set<Order>, live': set<Order>, g': Gains)
  {
    && Settling(users', pair, live', g')
    && LocksOutside(users, users', Ids(live))
    && OnlyGainsLeft(users', Ids(live) - Ids(live'), g')
  }

  /** Settling any trade list the book can return: it never meets a missing user, a missing or too small lock,
      a wrong asset or an oversized notional. The only fault left is the overflow of a credit. Otherwise every
      order still live is exactly backed, locks of filled orders hold their price improvement and nothing
      else, and no other lock has moved. */
  lemma {:induction false} SettleLaw(users: map<UserId, Account>, pair: TradingPair, live: set<Order>, g: Gains,
                                     ms: seq<Match>)
    requires Settling(users, pair, live, g) && OwnLocks(users, live) && LegalRun(live, ms)
    ensures var r := Settle(users, pair, ms);
            && (r.Fault? ==> r.fault == FillFailed(CreditOverflow))
            && (r.Settled? ==> SettledInto(users, r.users, pair, live, After(live, ms), GainAll(g, ms)))
    decreases ms
  {
    if ms == [] {
      assert Ids(live) - Ids(live) == {};
    } else {
      var m, live1, g1 := ms[0], Step(live, ms[0]), GainOne(g, ms[0]);
      var r := SettleOne(users, pair, m.BidInfo(), m.AskInfo());
      SettleOneLaw(users, pair, live, g, m);
      if r.Settled? {
        StepKeepsUnique(live, m);
        StepOwns(users, r.users, live, m);
        SettleLaw(r.users, pair, live1, g1, ms[1..]);
        if Settle(r.users, pair, ms[1..]).Settled? {
          StepSettled(users, r.users, Settle(r.users, pair, ms[1..]).users, pair, live, g, ms);
        }
      }
    }
  }

  lemma {:induction false} StepOwns(users: map<UserId, Account>, users1: map<UserId, Account>, live: set<Order>,
                                    m: Match)
    requires OwnLocks(users, live) && m.bid in live && m.ask in live
    requires LocksOutside(users, users1, {m.bid.id, m.ask.id})
    ensures OwnLocks(users1, Step(live, m))
  {
    FillsKeep(m.bid, m.quantity);
    FillsKeep(m.ask, m.quantity);
  }

  lemma {:induction false} StepSettled(users: map<UserId, Account>, users1: map<UserId, Account>, users2: map<UserId,
                                       Account>,
                                       pair: TradingPair, live: set<Order>, g: Gains, ms: seq<Match>)
    requires ms != [] && Settling(users, pair, live, g) && OwnLocks(users, live) && LegalRun(live, ms)
    requires var m := ms[0];
             && Settling(users1, pair, Step(live, m), GainOne(g, m))
             && LocksOutside(users, users1, {m.bid.id, m.ask.id}) && BothShrunk(users1, pair, m, GainOne(g, m))
             && SettledInto(users1, users2, pair, Step(live, m), After(live, ms), GainAll(g, ms))
    ensures SettledInto(users, users2, pair, live, After(live, ms), GainAll(g, ms))
  {
    hide UniqueIds, AllSolvent, Backed, AllBacked, Sane, LegalMatch;
    var m, live1, live', g' := ms[0], Step(live, ms[0]), After(live, ms), GainAll(g, ms);
    StepKeepsUnique(live, m);
    RunKeepsUnique(live1, ms[1..]);
    assert m.bid.id in Ids(live) && m.ask.id in Ids(live);
    LocksWiden(users, users1, users2, {m.bid.id, m.ask.id}, Ids(live1), Ids(live));
    forall u, id | u in users2 && id in Ids(live) - Ids(live') && id in users2[u].locks
      ensures users2[u].locks[id].amount == Gain(g', id)
    {
      if id !in Ids(live1) {
        assert SameLock(users1[u], users2[u], id);
        GainsOutside(GainOne(g, m), ms[1..], live1, id);
        FilledLeavesGain(users, users1, pair, live, m, g, u, id);
      }
    }
  }

  lemma {:induction false} FilledLeavesGain(users: map<UserId, Account>, users1: map<UserId, Account>,
                                            pair: TradingPair,
                                            live: set<Order>, m: Match, g: Gains, u: UserId, id: OrderId)
    requires LegalMatch(m) && m.bid in live && m.ask in live && OwnLocks(users, live)
    requires LocksOutside(users, users1, {m.bid.id, m.ask.id}) && BothShrunk(users1, pair, m, GainOne(g, m))
    requires u in users1 && id in users1[u].locks && id in FilledBy(m)
    ensures users1[u].locks[id].amount == Gain(GainOne(g, m), id)
  {
    FillsKeep(m.bid, m.quantity);
    assert id in users[u].locks;
  }

  // ---- What each order has left locked ----

  /** What `ms` debits to the order `id`: quote units for a bid, base units for an ask. */
  function Spent(ms: seq<Match>, id: OrderId): int {
    if ms == [] then 0
    else
      (if ms[0].bid.id == id then ms[0].price * ms[0].quantity else 0)
      + (if ms[0].ask.id == id then ms[0].quantity else 0)
      + Spent(ms[1..], id)
  }

  lemma {:induction false} SpentOutside(live: set<Order>, ms: seq<Match>, id: OrderId)
    requires LegalRun(live, ms) && UniqueIds(live) && id !in Ids(live)
    ensures Spent(ms, id) == 0
    decreases ms
  {
    if ms != [] {
      assert ms[0].bid.id in Ids(live) && ms[0].ask.id in Ids(live);
      StepKeepsUnique(live, ms[0]);
      SpentOutside(Step(live, ms[0]), ms[1..], id);
    }
  }

  /** The improvement a buy has on record; a sell has none. */
  function Improved(o: Order, g: Gains): nat {
    if o.side.Buy? then Gain(g, o.id) else 0
  }

  /** After a successful settlement the order has locked what it had less what its trades cost, and nothing at all
      when that is nothing; if it is filled that is its price improvement. */
  ghost predicate PaidFor(users': map<UserId, Account>, pair: TradingPair, x: Order, had: int, live': set<Order>,
                          ms: seq<Match>, g': Gains) {
    && x.user in users'
    && HoldsLock(users'[x.user], x.id, LockAsset(pair, x.side), had - Spent(ms, x.id))
    && (x.id !in Ids(live') ==> had - Spent(ms, x.id) == Improved(x, g'))
  }

  /** One match, the order as it then stands: its lock has fallen by what it paid. */
  lemma {:induction false} PaidOnce(users1: map<UserId, Account>, pair: TradingPair, g: Gains, m: Match, x: Order)
    requires LegalMatch(m) && Sane(m.bid) && Sane(m.ask) && m.bid.id != m.ask.id && x in {m.bid, m.ask}
    requires BothShrunk(users1, pair, m, GainOne(g, m))
    ensures var x' := x.Fills(m.quantity);
            && Due(x', GainOne(g, m)) == Due(x, g) - Spent([m], x.id)
            && x.user in users1 && HoldsLock(users1[x.user], x.id, LockAsset(pair, x.side), Due(x', GainOne(g, m)))
            && (x'.remaining == 0 ==> Due(x', GainOne(g, m)) == Improved(x, GainOne(g, m)))
  {
    hide GainOne, HoldsLock, Sane;
    FillsKeep(x, m.quantity);
    var notional := DueFalls(m, g);
    assert [m][1..] == [];
  }

  lemma {:induction false} FilledGone(live: set<Order>, m: Match, x: Order)
    requires UniqueIds(live) && m.bid in live && m.ask in live && LegalMatch(m) && x in {m.bid, m.ask}
    ensures m.bid.id != m.ask.id
    ensures var x' := x.Fills(m.quantity); if x'.remaining > 0 then x' in Step(live, m) else x.id !in Ids(Step(live, m))
  {
    hide Ids;
    StepKeepsUnique(live, m);
    FillsKeep(x, m.quantity);
  }

  /** For every live order, whatever becomes of it. */
  lemma {:induction false} LockLeft(users: map<UserId, Account>, pair: TradingPair, live: set<Order>, g: Gains,
                                    ms: seq<Match>, x: Order)
    requires Settling(users, pair, live, g) && OwnLocks(users, live) && LegalRun(live, ms)
    requires x in live && x.remaining > 0 && Settle(users, pair, ms).Settled?
    ensures PaidFor(Settle(users, pair, ms).users, pair, x, Due(x, g), After(live, ms), ms, GainAll(g, ms))
    decreases ms
  {
    hide SettleOne, GainOne, LegalMatch, AllSolvent, HoldsLock, Sane, Backed, AllBacked, UniqueIds, OwnLocks,
      BothShrunk, Step, Due, Ids, SameLock, Improved, Spent;
    if ms == [] {
      StillBacked(users, pair, live, g, x);
    } else {
      var m, live1, g1 := ms[0], Step(live, ms[0]), GainOne(g, ms[0]);
      var r := SettleOne(users, pair, m.BidInfo(), m.AskInfo());
      SettleOneLaw(users, pair, live, g, m);
      StepOwns(users, r.users, live, m);
      SpentSplit(ms, x.id);
      if x == m.bid || x == m.ask {
        FilledGone(live, m, x);
        SaneBoth(users, pair, live, g, m);
        PaidOnce(r.users, pair, g, m, x);
        var x' := x.Fills(m.quantity);
        FillsKeep(x, m.quantity);
        if x'.remaining > 0 {
          LockLeft(r.users, pair, live1, g1, ms[1..], x');
          SameImproved(x, x', GainAll(g, ms));
        } else {
          SettleLaw(r.users, pair, live1, g1, ms[1..]);
          GoneStays(r.users, Settle(r.users, pair, ms[1..]).users, pair, live1, g1, ms[1..], x);
        }
      } else {
        Uninvolved(live, g, m, x);
        LockLeft(r.users, pair, live1, g1, ms[1..], x);
      }
    }
  }

  lemma {:induction false} SameImproved(x: Order, x': Order, g: Gains)
    requires x.id == x'.id && x.side == x'.side
    ensures Improved(x, g) == Improved(x', g)
  {
  }

  lemma {:induction false} SaneBoth(users: map<UserId, Account>, pair: TradingPair, live: set<Order>, g: Gains,
                                    m: Match)
    requires AllBacked(users, pair, live, g) && m.bid in live && m.ask in live
    ensures Sane(m.bid) && Sane(m.ask)
  {
  }

  lemma {:induction false} SpentSplit(ms: seq<Match>, id: OrderId)
    requires ms != []
    ensures Spent(ms, id) == Spent([ms[0]], id) + Spent(ms[1..], id)
  {
    assert [ms[0]][1..] == [];
  }

  lemma {:induction false} StillBacked(users: map<UserId, Account>, pair: TradingPair, live: set<Order>, g: Gains,
                                       x: Order)
    requires AllBacked(users, pair, live, g) && x in live && x.remaining > 0
    ensures PaidFor(users, pair, x, Due(x, g), live, [], g)
  {
    assert Sane(x) && Backed(users, pair, x, g) && x.id in Ids(live);
    if x.side.Buy? {
      MulMono(1, x.price, 1, x.remaining);
    }
  }

  lemma {:induction false} Uninvolved(live: set<Order>, g: Gains, m: Match, x: Order)
    requires UniqueIds(live) && m.bid in live && m.ask in live && x in live && x != m.bid && x != m.ask
    ensures x in Step(live, m) && Spent([m], x.id) == 0 && Due(x, GainOne(g, m)) == Due(x, g)
  {
    assert [m][1..] == [];
  }

  /** The lock of an order that is gone is not touched again. */
  lemma {:induction false} GoneStays(users: map<UserId, Account>, users': map<UserId, Account>, pair: TradingPair,
                                     live: set<Order>, g: Gains, ms: seq<Match>, x: Order)
    requires UniqueIds(live) && LegalRun(live, ms) && x.id !in Ids(live) && LocksOutside(users, users', Ids(live))
    requires x.user in users && HoldsLock(users[x.user], x.id, LockAsset(pair, x.side), Improved(x, g))
    ensures PaidFor(users', pair, x, Improved(x, g), After(live, ms), ms, GainAll(g, ms))
  {
    hide LegalRun, After, GainAll, UniqueIds;
    SpentOutside(live, ms, x.id);
    GainsOutside(g, ms, live, x.id);
    RunKeepsUnique(live, ms);
    assert SameLock(users[x.user], users'[x.user], x.id);
  }
}
