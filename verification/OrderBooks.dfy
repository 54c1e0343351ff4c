/** The price-time priority order book of one trading pair. */
module OrderBooks {
  import opened Types
  import opened Levels
  import opened Matching
  import opened Soundness
  import opened Greedy
  import opened Crossing

  /** The book's value: both sides, and the index of order copies, which fills never update. */
  datatype Book = Book(bids: LevelMap, asks: LevelMap, index: map<OrderId, Order>)
  {
    function Side(s: Side): LevelMap {
      if s.Buy? then bids else asks
    }

    function WithSide(s: Side, m: LevelMap): (r: Book)
      ensures r.Side(s) == m && r.Side(s.Opposite()) == Side(s.Opposite()) && r.index == index
    {
      if s.Buy? then this.(bids := m) else this.(asks := m)
    }

    function Orders(): set<Order> {
      Pool(bids) + Pool(asks)
    }

    /** Index and queues hold the same ids and the same fixed fields; every order is on its level. */
    ghost predicate Valid() {
      && LevelsOk(Buy, bids) && LevelsOk(Sell, asks)
      && UniqueIds(Orders())
      && index.Keys == Ids(Orders())
      && (forall o :: o in Orders() ==> index[o.id].Fixed() == o.Fixed())
    }
  }

  const EMPTY_BOOK := Book(map[], map[], map[])

  // ---- The operations as functions ----

  predicate CanMatch(b: Book, side: Side, price: Price) {
    var m := b.Side(side.Opposite());
    m != map[] && Crosses(side, price, Best(side.Opposite(), m))
  }

  /** FAK and FOK: the order never enters the book. */
  function SweepBook(b: Book, o: Order): (Book, seq<Match>) {
    var w := Sweep(o, b.Side(o.side.Opposite()));
    (b.WithSide(o.side.Opposite(), w.levels).(index := b.index - FilledIds(w.matches)), w.matches)
  }

  /** GTC and GFD: the order enters the book, then crossing orders are cleared. */
  function EnterBook(b: Book, o: Order): (Book, seq<Match>) {
    var c := Clear(o.side, Enter(o, b.Side(o.side)), b.Side(o.side.Opposite()));
    var index := b.index[o.id := o] - FilledIds(c.matches);
    (b.WithSide(o.side, c.same).WithSide(o.side.Opposite(), c.opp).(index := index), c.matches)
  }

  function Add(b: Book, o: Order): (Book, Option<seq<Match>>) {
    if o.id in b.index then (b, None)
    else if o.kind.Rests() then
      var (b', ms) := EnterBook(b, o); (b', Some(ms))
    else if !CanMatch(b, o.side, o.price) then (b, None)
    else if o.kind.FillOrKill? && Sum(Candidates(o, b.Side(o.side.Opposite()))) < o.remaining then (b, None)
    else
      var (b', ms) := SweepBook(b, o); (b', Some(ms))
  }

  function Without(q: Queue, id: OrderId): Queue {
    if q == [] then [] else (if q[0].id == id then [] else [q[0]]) + Without(q[1..], id)
  }

  function Cancel(b: Book, id: OrderId): (Book, Option<Order>) {
    if id !in b.index then (b, None)
    else
      var o := b.index[id];
      var m := b.Side(o.side);
      var m' := if o.price in m then Put(m, o.price, Without(m[o.price], id)) else m;
      (b.WithSide(o.side, m').(index := b.index - {id}), Some(o))
  }

  function OthersOnly(m: LevelMap, user: UserId): LevelMap {
    map p | p in m && Others(user, m[p]) != [] :: Others(user, m[p])
  }

  function IdsOf(index: map<OrderId, Order>, user: UserId): set<OrderId> {
    set id | id in index && index[id].user == user
  }

  function Members(ids: seq<OrderId>): set<OrderId> {
    set id | id in ids
  }

  function CancelUser(b: Book, user: UserId): Book {
    Book(OthersOnly(b.bids, user), OthersOnly(b.asks, user), b.index - IdsOf(b.index, user))
  }

  // ---- The depth snapshot ----

  datatype LevelInfo = LevelInfo(price: Price, quantity: Quantity)

  ghost predicate BestFirst(side: Side, info: seq<LevelInfo>) {
    forall i, j :: 0 <= i < j < |info| ==> Rank(side, info[i].price) < Rank(side, info[j].price)
  }

  ghost predicate Totals(m: LevelMap, prices: set<Price>, info: seq<LevelInfo>) {
    forall l :: l in info ==> l.price in prices && l.price in m && l.quantity == Clamped(Sum(m[l.price]))
  }

  ghost predicate Covers(prices: set<Price>, info: seq<LevelInfo>) {
    forall p :: p in prices ==> exists l :: l in info && l.price == p
  }

  /** `info` lists the levels `prices` of `m` strictly best first, each once, with its clamped total. */
  ghost predicate Lists(side: Side, m: LevelMap, prices: set<Price>, info: seq<LevelInfo>) {
    BestFirst(side, info) && Totals(m, prices, info) && Covers(prices, info)
  }

  /** The lowest price not yet listed goes before all listed bids and after all listed asks. */
  function WithLevel(side: Side, l: LevelInfo, info: seq<LevelInfo>): (r: seq<LevelInfo>)
    ensures forall x :: x in r <==> x == l || x in info
  {
    if side.Buy? then [l] + info else info + [l]
  }

  lemma {:induction false} NextLevel(side: Side, m: LevelMap, prices: set<Price>, p: Price, info: seq<LevelInfo>)
    requires p in m && (forall q :: q in prices ==> q < p) && Lists(side, m, prices, info)
    ensures Lists(side, m, prices + {p}, WithLevel(side, LevelInfo(p, Clamped(Sum(m[p]))), info))
  {
    hide Sum, Clamped;
    var l := LevelInfo(p, Clamped(Sum(m[p])));
    StillBestFirst(side, l, info);
    forall q | q in prices + {p}
      ensures exists x :: x in WithLevel(side, l, info) && x.price == q
    {
      if q == p {
        assert l in WithLevel(side, l, info);
      } else {
        var x :| x in info && x.price == q;
        assert x in WithLevel(side, l, info);
      }
    }
  }

  lemma {:induction false} StillBestFirst(side: Side, l: LevelInfo, info: seq<LevelInfo>)
    requires BestFirst(side, info) && forall x :: x in info ==> x.price < l.price
    ensures BestFirst(side, WithLevel(side, l, info))
  {
    assert forall i :: 0 <= i < |info| ==> info[i] in info;
    if side.Buy? {
      assert forall i :: 0 < i <= |info| ==> ([l] + info)[i] == info[i - 1];
    }
  }

  lemma {:induction false} NothingListed(side: Side, m: LevelMap)
    ensures Lists(side, m, {}, [])
  {
  }

  /** `rest` is what of `m` is still to be listed; all of it lies above what is listed. */
  ghost predicate ToList(m: LevelMap, listed: set<Price>, rest: LevelMap) {
    && listed <= m.Keys && rest.Keys == m.Keys - listed
    && (forall p :: p in rest ==> rest[p] == m[p])
    && forall p, q :: p in listed && q in rest ==> p < q
  }

  lemma {:induction false} LowestNext(m: LevelMap, listed: set<Price>, rest: LevelMap, p: Price)
    requires ToList(m, listed, rest) && p in rest && forall q :: q in rest ==> p <= q
    ensures ToList(m, listed + {p}, rest - {p})
    ensures p in m && rest[p] == m[p] && (forall q :: q in listed ==> q < p) && |rest - {p}| < |rest|
  {
    assert (rest - {p}).Keys == rest.Keys - {p};
  }

  lemma {:induction false} AllToList(m: LevelMap, listed: set<Price>, rest: LevelMap)
    ensures ToList(m, {}, m)
    ensures ToList(m, listed, rest) && rest == map[] ==> listed == m.Keys
  {
    if ToList(m, listed, rest) && rest == map[] {
      forall p | p in m
        ensures p in listed
      {
        assert p !in rest.Keys;
      }
    }
  }

  /** One side, walked in ascending price; bids go to the front, asks to the back. */
  method Depth(side: Side, m: LevelMap) returns (info: seq<LevelInfo>)
    ensures Lists(side, m, m.Keys, info)
  {
    hide Sum, Clamped, Lists, WithLevel, Best, ToList;
    info := [];
    var rest := m;
    ghost var listed: set<Price> := {};
    NothingListed(side, m);
    AllToList(m, listed, rest);
    while rest != map[]
      invariant ToList(m, listed, rest) && Lists(side, m, listed, info)
      decreases |rest|
    {
      var p := Best(Sell, rest);
      LowestNext(m, listed, rest, p);
      NextLevel(side, m, listed, p, info);
      info := WithLevel(side, LevelInfo(p, Clamped(Sum(rest[p]))), info);
      rest, listed := rest - {p}, listed + {p};
    }
    AllToList(m, listed, rest);
  }

  // ---- The book ----

  class OrderBook {
    var bidsMap: LevelMap
    var asksMap: LevelMap
    var ordersMap: map<OrderId, Order>

    function Value(): Book
      reads this
    {
      Book(bidsMap, asksMap, ordersMap)
    }

    constructor ()
      ensures Value() == EMPTY_BOOK
    {
      bidsMap, asksMap, ordersMap := map[], map[], map[];
    }

    method SetSide(side: Side, m: LevelMap)
      modifies this
      ensures Value() == old(Value()).WithSide(side, m)
    {
      if side.Buy? {
        bidsMap := m;
      } else {
        asksMap := m;
      }
    }

    /** The entry point for placing an order: duplicate ids are refused, FAK and FOK never enter the book. */
    method AddOrder(order: Order, stamp: nat -> Stamp) returns (trades: Option<seq<Trade>>)
      modifies this
      ensures Value() == Add(old(Value()), order).0
      ensures match Add(old(Value()), order).1
              case None => trades == None
              case Some(ms) => trades == Some(Recorded(ms, stamp, 0))
    {
      if order.id in ordersMap {
        return None;
      }
      if order.kind.FillAndKill? || order.kind.FillOrKill? {
        if !CanMatch(Value(), order.side, order.price) {
          return None;
        }
        trades := MatchAgainstOpposite(order, order.kind.FillOrKill?, stamp);
        return;
      }
      ordersMap := ordersMap[order.id := order];
      SetSide(order.side, Enter(order, Value().Side(order.side)));
      var ts := MatchOrder(order.side, stamp);
      trades := Some(ts);
    }

    /** Matches the best levels against each other until the sides no longer cross. */
    method MatchOrder(side: Side, stamp: nat -> Stamp) returns (trades: seq<Trade>)
      modifies this
      ensures var c := Clear(side, old(Value()).Side(side), old(Value()).Side(side.Opposite()));
              && Value() == old(Value()).WithSide(side, c.same).WithSide(side.Opposite(), c.opp)
                                        .(index := old(ordersMap) - FilledIds(c.matches))
              && trades == Recorded(c.matches, stamp, 0)
    {
      var same, opp, index;
      same, opp, trades, index :=
        ClearLevels(side, Value().Side(side), Value().Side(side.Opposite()), stamp, ordersMap);
      ordersMap := index;
      SetSide(side, same);
      SetSide(side.Opposite(), opp);
    }

    /** A taker that never rests against the opposite side, best price inward. */
    method MatchAgainstOpposite(order: Order, requireFullFill: bool,
                                stamp: nat -> Stamp) returns (trades: Option<seq<Trade>>)
      requires order.id !in ordersMap
      modifies this
      ensures var enough := Sum(Candidates(order, old(Value()).Side(order.side.Opposite()))) >= order.remaining;
              if requireFullFill && !enough then trades == None && Value() == old(Value())
              else trades == Some(Recorded(SweepBook(old(Value()), order).1, stamp, 0))
                   && Value() == SweepBook(old(Value()), order).0
    {
      var side := order.side.Opposite();
      var opp := Value().Side(side);
      if requireFullFill {
        var available := Liquidity(order, opp);
        if available < order.remaining {
          return None;
        }
      }
      var levels, remainingQty, ts, index := SweepLevels(order, opp, stamp, ordersMap);
      if requireFullFill && remainingQty > 0 {
        FillsWhole(order, opp);
        assert false;
      }
      ordersMap := index;
      SetSide(side, levels);
      trades := Some(ts);
    }

    /** Removes the order from its queue and from the index, found through the index copy's side and price. */
    method CancelOrder(id: OrderId) returns (order: Option<Order>)
      modifies this
      ensures (Value(), order) == Cancel(old(Value()), id)
    {
      if id !in ordersMap {
        return None;
      }
      var o := ordersMap[id];
      ordersMap := ordersMap - {id};
      var m := Value().Side(o.side);
      if o.price in m {
        SetSide(o.side, Put(m, o.price, Without(m[o.price], id)));
      }
      order := Some(o);
    }

    /** A depth snapshot, both sides best first. */
    method GetOrderInfo() returns (bids: seq<LevelInfo>, asks: seq<LevelInfo>)
      ensures Lists(Buy, bidsMap, bidsMap.Keys, bids) && Lists(Sell, asksMap, asksMap.Keys, asks)
      ensures forall i, j :: 0 <= i < j < |bids| ==> bids[i].price > bids[j].price
      ensures forall i, j :: 0 <= i < j < |asks| ==> asks[i].price < asks[j].price
    {
      bids := Depth(Buy, bidsMap);
      asks := Depth(Sell, asksMap);
    }

    /** Removes all orders of a user, and returns their ids in the index's iteration order. */
    method CancelOrdersForUser(user: UserId) returns (removed: seq<OrderId>)
      modifies this
      ensures Value() == CancelUser(old(Value()), user)
      ensures Members(removed) == IdsOf(old(ordersMap), user)
      ensures forall i, j :: 0 <= i < j < |removed| ==> removed[i] != removed[j]
    {
      removed := [];
      var todo := ordersMap.Keys;
      while todo != {}
        invariant Value() == old(Value()) && todo <= ordersMap.Keys
        invariant Members(removed) == IdsOf(ordersMap, user) - todo
        invariant forall i, j :: 0 <= i < j < |removed| ==> removed[i] != removed[j]
        decreases todo
      {
        var id :| id in todo;
        if ordersMap[id].user == user {
          assert IdsOf(ordersMap, user) - (todo - {id}) == Members(removed) + {id} == Members(removed + [id]);
          assert id !in Members(removed);
          removed := removed + [id];
        } else {
          assert id !in IdsOf(ordersMap, user);
        }
        todo := todo - {id};
      }
      bidsMap, asksMap := OthersOnly(bidsMap, user), OthersOnly(asksMap, user);
      ordersMap := ordersMap - IdsOf(ordersMap, user);
    }
  }

  // ---- The inner loops ----

  /** Levels set aside, as a map. */
  function LevelsOf(aside: seq<(Price, Queue)>): LevelMap {
    if aside == [] then map[] else LevelsOf(aside[..|aside| - 1])[aside[|aside| - 1].0 := aside[|aside| - 1].1]
  }

  lemma {:induction false} MoreAside(aside: seq<(Price, Queue)>, p: Price, q: Queue)
    ensures LevelsOf(aside + [(p, q)]) == LevelsOf(aside)[p := q]
    ensures LevelsOf([]) == map[]
  {
    assert (aside + [(p, q)])[..|aside|] == aside;
  }

  method Reinsert(m: LevelMap, aside: seq<(Price, Queue)>) returns (r: LevelMap)
    ensures r == m + LevelsOf(aside)
  {
    r := m;
    for i := 0 to |aside|
      invariant r == m + LevelsOf(aside[..i])
    {
      r := r[aside[i].0 := aside[i].1];
      assert aside[..i + 1][..i] == aside[..i];
    }
    assert aside[..|aside|] == aside;
  }

  /** The GTC loop. */
  method ClearLevels(side: Side, same0: LevelMap, opp0: LevelMap, stamp: nat -> Stamp, index0: map<OrderId, Order>)
    returns (same: LevelMap, opp: LevelMap, trades: seq<Trade>, index: map<OrderId, Order>)
    ensures var c := Clear(side, same0, opp0);
            && same == c.same && opp == c.opp
            && trades == Recorded(c.matches, stamp, 0) && index == index0 - FilledIds(c.matches)
  {
    hide Clear, Duel, Recorded, FilledIds, ClearOwes, LevelsOf, Logged, Put, Best, Crosses;
    same, opp, trades, index := same0, opp0, [], index0;
    var selfTradeLevels: seq<(Price, Queue)> := [];
    ghost var all, done := Clear(side, same, opp), [];
    ClearStarts(side, same, opp);
    MoreAside([], 0, []);
    NothingLogged(stamp, 0, index0);
    while Crossed(side, same, opp)
      invariant ClearOwes(all, side, same, opp, LevelsOf(selfTradeLevels), done)
      invariant Logged(done, stamp, 0, index0, trades, index)
      decreases |same| + |opp|
    {
      NextShrinks(side, same, opp);
      ClearStep(all, side, same, opp, LevelsOf(selfTradeLevels), done);
      var samePrice, oppPrice := Best(side, same), Best(side.Opposite(), opp);
      ghost var d := FirstDuel(side, same, opp);
      LogMore(done, d.matches, stamp, index0, trades, index);
      var sameQueue, oppQueue, allSelfTrade;
      sameQueue, oppQueue, trades, index, allSelfTrade :=
        DuelLevels(same[samePrice], opp[oppPrice], side, oppPrice, stamp, trades, index);
      done := done + d.matches;
      same := Put(same, samePrice, sameQueue);
      if allSelfTrade {
        opp := opp - {oppPrice};
        MoreAside(selfTradeLevels, oppPrice, oppQueue);
        selfTradeLevels := selfTradeLevels + [(oppPrice, oppQueue)];
      } else {
        opp := Put(opp, oppPrice, oppQueue);
      }
    }
    ClearFinished(all, side, same, opp, LevelsOf(selfTradeLevels), done);
    WhatIsLogged(done, stamp, 0, index0, trades, index);
    opp := Reinsert(opp, selfTradeLevels);
  }

  /** The FAK and FOK loop. */
  method SweepLevels(order: Order, opp0: LevelMap, stamp: nat -> Stamp, index0: map<OrderId, Order>)
    returns (opp: LevelMap, remainingQty: Quantity, trades: seq<Trade>, index: map<OrderId, Order>)
    requires order.id !in index0
    ensures var w := Sweep(order, opp0);
            && opp == w.levels && remainingQty == w.taker.remaining
            && trades == Recorded(w.matches, stamp, 0) && index == index0 - FilledIds(w.matches)
  {
    hide Sweep, SweepLevel, Recorded, FilledIds, SweepOwes, LevelsOf;
    opp, remainingQty, trades, index := opp0, order.remaining, [], index0;
    var selfTradeLevels: seq<(Price, Queue)> := [];
    ghost var all, done, taker := Sweep(order, opp), [], order;
    SweepStarts(order, opp);
    MoreAside([], 0, []);
    NothingLogged(stamp, 0, index0);
    while remainingQty > 0 && opp != map[] && Crosses(order.side, order.price, Best(order.side.Opposite(), opp))
      invariant taker.Fixed() == order.Fixed() && taker.remaining == remainingQty
      invariant SweepOwes(all, taker, opp, LevelsOf(selfTradeLevels), done)
      invariant Logged(done, stamp, 0, index0, trades, index)
      decreases remainingQty > 0, |opp|
    {
      SameTaker(taker, order);
      SweepStep(all, taker, opp, LevelsOf(selfTradeLevels), done);
      var price := Best(order.side.Opposite(), opp);
      ghost var l := SweepLevel(taker, opp[price], |opp[price]|);
      LogMore(done, l.matches, stamp, index0, trades, index);
      var queue, allSelfTrade;
      queue, remainingQty, trades, index, allSelfTrade :=
        FillLevel(order, taker, remainingQty, opp[price], stamp, trades, index);
      done, taker := done + l.matches, l.taker;
      if allSelfTrade {
        opp := opp - {price};
        MoreAside(selfTradeLevels, price, queue);
        selfTradeLevels := selfTradeLevels + [(price, queue)];
      } else if queue == [] {
        opp := opp - {price};
      } else {
        opp := opp[price := queue];
      }
    }
    SameTaker(taker, order);
    SweepFinished(all, taker, opp, LevelsOf(selfTradeLevels), done);
    opp := Reinsert(opp, selfTradeLevels);
  }

  /** Liquidity of other users at crossing prices, best level first. */
  method Liquidity(order: Order, levels: LevelMap) returns (available: nat)
    ensures available == Sum(Candidates(order, levels))
  {
    available := 0;
    var m := levels;
    while m != map[] && Crosses(order.side, order.price, Best(order.side.Opposite(), m))
      invariant available + Sum(Candidates(order, m)) == Sum(Candidates(order, levels))
      decreases |m|
    {
      var price := Best(order.side.Opposite(), m);
      var q := m[price];
      ghost var before := available;
      for i := 0 to |q|
        invariant available + Sum(Others(order.user, q[i..])) == before + Sum(Others(order.user, q))
      {
        NextOther(order.user, q, i);
        if q[i].user != order.user {
          available := available + q[i].remaining;
        }
      }
      SumAppend(Others(order.user, q), Candidates(order, m - {price}));
      m := m - {price};
    }
  }

  lemma {:induction false} NextOther(user: UserId, q: Queue, i: nat)
    requires i < |q|
    ensures Sum(Others(user, q[i..]))
            == (if q[i].user == user then 0 else q[i].remaining) + Sum(Others(user, q[i + 1..]))
  {
    assert q[i..][1..] == q[i + 1..] && q[i..][0] == q[i];
    var rest := Others(user, q[i + 1..]);
    assert ([q[i]] + rest)[1..] == rest && [] + rest == rest;
  }

  lemma {:induction false} SumAppend(q: Queue, r: Queue)
    ensures Sum(q + r) == Sum(q) + Sum(r)
  {
    if q == [] {
      assert q + r == r;
    } else {
      SumAppend(q[1..], r);
      assert (q + r)[1..] == q[1..] + r;
    }
  }

  /** `trades` and `index` are what the matches `done` make of the clock and of the index `orders`. */
  ghost predicate Logged(done: seq<Match>, stamp: nat -> Stamp, from: nat, orders: map<OrderId, Order>,
                         trades: seq<Trade>, index: map<OrderId, Order>)
  {
    trades == Recorded(done, stamp, from) && index == orders - FilledIds(done)
  }

  lemma {:induction false} WhatIsLogged(done: seq<Match>, stamp: nat -> Stamp, from: nat, orders: map<OrderId, Order>,
                                         trades: seq<Trade>, index: map<OrderId, Order>)
    requires Logged(done, stamp, from, orders, trades, index)
    ensures trades == Recorded(done, stamp, from) && index == orders - FilledIds(done)
  {
  }

  lemma {:induction false} NothingLogged(stamp: nat -> Stamp, from: nat, orders: map<OrderId, Order>)
    ensures Logged([], stamp, from, orders, [], orders)
  {
  }

  /** What one more match adds to the log of `trades0` and `index0`. */
  lemma {:induction false} LogMatch(done: seq<Match>, m: Match, stamp: nat -> Stamp, index0: map<OrderId, Order>,
                                    trades0: seq<Trade>,
                                    trades: seq<Trade>, index: map<OrderId, Order>)
    requires trades == trades0 + Recorded(done, stamp, |trades0|) && index == index0 - FilledIds(done)
    ensures trades + [m.Stamped(stamp(|trades|))] == trades0 + Recorded(done + [m], stamp, |trades0|)
    ensures index - FilledBy(m) == index0 - FilledIds(done + [m])
  {
    RecordedAppend(done, [m], stamp, |trades0|);
    FilledAppend(done, [m]);
    assert FilledIds([m]) == FilledBy(m) + FilledIds([m][1..]);
    assert Recorded([m], stamp, |trades|) == [m.Stamped(stamp(|trades|))];
  }

  lemma {:induction false} LogMore(done: seq<Match>, ms: seq<Match>, stamp: nat -> Stamp, orders: map<OrderId, Order>,
                                   trades: seq<Trade>, index: map<OrderId, Order>)
    requires Logged(done, stamp, 0, orders, trades, index)
    ensures Logged(done + ms, stamp, 0, orders, trades + Recorded(ms, stamp, |trades|), index - FilledIds(ms))
  {
    RecordedAppend(done, ms, stamp, 0);
    FilledAppend(done, ms);
  }

  /** The loop over one level for a taker that never rests. The source keeps the taker's remainder in
      `remainingQty` and leaves `order` as it is; `taker0` is the order as it would stand. */
  method FillLevel(order: Order, ghost taker0: Order, required: Quantity, level: Queue, stamp: nat -> Stamp,
                   trades0: seq<Trade>, index0: map<OrderId, Order>)
    returns (queue: Queue, remainingQty: Quantity, trades: seq<Trade>, index: map<OrderId, Order>, allSelfTrade: bool)
    requires taker0.Fixed() == order.Fixed() && taker0.remaining == required && order.id !in index0
    ensures var l := SweepLevel(taker0, level, |level|);
            && queue == l.queue && remainingQty == l.taker.remaining && allSelfTrade == l.blocked
            && l.taker.Fixed() == order.Fixed()
            && trades == trades0 + Recorded(l.matches, stamp, |trades0|) && index == index0 - FilledIds(l.matches)
  {
    hide Recorded, FilledIds, SweepLevel;
    queue, remainingQty, trades, index, allSelfTrade := level, required, trades0, index0, false;
    var initialLen, skipped := |level|, 0;
    ghost var taker, ms: seq<Match> := taker0, [];
    NothingLogged(stamp, |trades0|, index0);
    LevelStarts(taker0, level);
    while remainingQty > 0 && queue != []
      invariant taker.Fixed() == order.Fixed() && taker.remaining == remainingQty && skipped <= initialLen
      invariant !allSelfTrade
      invariant LevelOwes(SweepLevel(taker0, level, |level|), taker, queue, initialLen - skipped, ms)
      invariant trades == trades0 + Recorded(ms, stamp, |trades0|) && index == index0 - FilledIds(ms)
      decreases remainingQty, initialLen - skipped + |queue|
    {
      SameTaker(taker, order);
      var resting := queue[0];
      if resting.user == order.user {
        LevelSkips(SweepLevel(taker0, level, |level|), taker, queue, initialLen - skipped, ms);
        queue := queue[1..] + [resting];
        skipped := skipped + 1;
        if skipped >= initialLen {
          allSelfTrade := true;
          break;
        }
        continue;
      }
      var fillQty := Min(remainingQty, resting.remaining);
      ghost var m := MatchOf(taker, resting, resting.price, fillQty);
      LevelFills(SweepLevel(taker0, level, |level|), taker, queue, initialLen - skipped, ms);
      LogMatch(ms, m, stamp, index0, trades0, trades, index);
      remainingQty := remainingQty - fillQty;
      var left := resting.Fills(fillQty);
      SameTaker(left, resting);
      if left.remaining == 0 {
        queue := queue[1..];
        index := index - {left.id};
      } else {
        queue := [left] + queue[1..];
      }
      assert index == index - {order.id};
      var mine, theirs := TradeInfo(order.id, resting.price, fillQty, order.user),
            TradeInfo(left.id, resting.price, fillQty, left.user);
      var s := stamp(|trades|);
      trades := trades + [if order.side.Buy? then Trade(s.id, s.time, mine, theirs)
                          else Trade(s.id, s.time, theirs, mine)];
      taker, ms := taker.Fills(fillQty), ms + [m];
    }
    if !allSelfTrade {
      LevelFinished(SweepLevel(taker0, level, |level|), taker, queue, initialLen - skipped, ms);
    }
  }

  lemma {:induction false} SameTaker(a: Order, b: Order)
    requires a.Fixed() == b.Fixed()
    ensures a.id == b.id && a.side == b.side && a.price == b.price && a.user == b.user
  {
    assert a.Fixed().id == a.id && a.Fixed().side == a.side && a.Fixed().price == a.price && a.Fixed().user == a.user;
    assert b.Fixed().id == b.id && b.Fixed().side == b.side && b.Fixed().price == b.price && b.Fixed().user == b.user;
  }

  /** The level loop still owes exactly the rest of `all`. */
  ghost predicate LevelOwes(all: LevelOut, taker: Order, q: Queue, budget: nat, done: seq<Match>) {
    var l := SweepLevel(taker, q, budget); all == l.(matches := done + l.matches)
  }

  lemma {:induction false} LevelStarts(taker: Order, q: Queue)
    ensures LevelOwes(SweepLevel(taker, q, |q|), taker, q, |q|, [])
  {
  }

  lemma {:induction false} LevelFinished(all: LevelOut, taker: Order, q: Queue, budget: nat, done: seq<Match>)
    requires LevelOwes(all, taker, q, budget, done) && (taker.remaining == 0 || q == [])
    ensures all == LevelOut(taker, q, done, false)
  {
    assert done + [] == done;
  }

  lemma {:induction false} LevelSkips(all: LevelOut, taker: Order, q: Queue, budget: nat, done: seq<Match>)
    requires LevelOwes(all, taker, q, budget, done) && taker.remaining > 0 && q != [] && q[0].user == taker.user
    ensures if budget <= 1 then all == LevelOut(taker, q[1..] + [q[0]], done, true)
            else LevelOwes(all, taker, q[1..] + [q[0]], budget - 1, done)
  {
    assert done + [] == done;
  }

  lemma {:induction false} LevelFills(all: LevelOut, taker: Order, q: Queue, budget: nat, done: seq<Match>)
    requires LevelOwes(all, taker, q, budget, done) && taker.remaining > 0 && q != [] && q[0].user != taker.user
    ensures var k := Min(taker.remaining, q[0].remaining);
            LevelOwes(all, taker.Fills(k), Cut(q, k), budget, done + [MatchOf(taker, q[0], q[0].price, k)])
  {
    var k := Min(taker.remaining, q[0].remaining);
    AssocMatches(done, [MatchOf(taker, q[0], q[0].price, k)], SweepLevel(taker.Fills(k), Cut(q, k), budget).matches);
  }

  /** The sweep still owes exactly the rest of `all`; the levels `aside` come back at the end. */
  ghost predicate SweepOwes(all: SweepOut, taker: Order, opp: LevelMap, aside: LevelMap, done: seq<Match>) {
    var w := Sweep(taker, opp);
    all.taker == w.taker && all.levels == w.levels + aside && all.matches == done + w.matches && aside.Keys !! opp.Keys
  }

  lemma {:induction false} SweepStarts(taker: Order, opp: LevelMap)
    ensures SweepOwes(Sweep(taker, opp), taker, opp, map[], [])
  {
  }

  lemma {:induction false} SweepFinished(all: SweepOut, taker: Order, opp: LevelMap, aside: LevelMap, done: seq<Match>)
    requires SweepOwes(all, taker, opp, aside, done)
    requires taker.remaining == 0 || opp == map[] || !Crosses(taker.side, taker.price, Best(taker.side.Opposite(), opp))
    ensures all == SweepOut(taker, opp + aside, done)
  {
    assert done + [] == done;
  }

  lemma {:induction false} SweepStep(all: SweepOut, taker: Order, opp: LevelMap, aside: LevelMap, done: seq<Match>)
    requires SweepOwes(all, taker, opp, aside, done)
    requires taker.remaining > 0 && opp != map[] && Crosses(taker.side, taker.price, Best(taker.side.Opposite(), opp))
    ensures var p := Best(taker.side.Opposite(), opp);
            var l := SweepLevel(taker, opp[p], |opp[p]|);
            && (l.blocked ==> SweepOwes(all, l.taker, opp - {p}, aside[p := l.queue], done + l.matches))
            && (l.queue == [] ==> SweepOwes(all, l.taker, opp - {p}, aside, done + l.matches))
            && (!l.blocked && l.queue != [] ==> SweepOwes(all, l.taker, opp[p := l.queue], aside, done + l.matches))
  {
    hide SweepLevel;
    var p := Best(taker.side.Opposite(), opp);
    var l := SweepLevel(taker, opp[p], |opp[p]|);
    var w := Sweep(l.taker, opp - {p});
    SweepKeys(l.taker, opp - {p});
    AssocMatches(done, l.matches, w.matches);
    if l.blocked {
      assert w.levels[p := l.queue] + aside == w.levels + aside[p := l.queue];
    } else if l.queue != [] {
      assert (opp - {p})[p := l.queue] == opp[p := l.queue];
    }
  }

  /** The GTC loop still owes exactly the rest of `all`. */
  ghost predicate ClearOwes(all: ClearOut, side: Side, same: LevelMap, opp: LevelMap, aside: LevelMap,
                            done: seq<Match>) {
    var c := Clear(side, same, opp);
    all.same == c.same && all.opp == c.opp + aside && all.matches == done + c.matches && aside.Keys !! opp.Keys
  }

  lemma {:induction false} ClearStarts(side: Side, same: LevelMap, opp: LevelMap)
    ensures ClearOwes(Clear(side, same, opp), side, same, opp, map[], [])
  {
  }

  lemma {:induction false} ClearFinished(all: ClearOut, side: Side, same: LevelMap, opp: LevelMap, aside: LevelMap,
                                         done: seq<Match>)
    requires ClearOwes(all, side, same, opp, aside, done) && !Crossed(side, same, opp)
    ensures all == ClearOut(same, opp + aside, done)
  {
    assert done + [] == done;
  }

  lemma {:induction false} ClearStep(all: ClearOut, side: Side, same: LevelMap, opp: LevelMap, aside: LevelMap,
                                     done: seq<Match>)
    requires ClearOwes(all, side, same, opp, aside, done) && Crossed(side, same, opp)
    ensures var d, op := FirstDuel(side, same, opp), Best(side.Opposite(), opp);
            ClearOwes(all, side, NextSame(side, same, opp), NextOpp(side, same, opp),
                      if d.blocked then aside[op := d.opp] else aside, done + d.matches)
  {
    hide FirstDuel, NextSame, NextOpp;
    var d, op := FirstDuel(side, same, opp), Best(side.Opposite(), opp);
    var c := Clear(side, NextSame(side, same, opp), NextOpp(side, same, opp));
    AssocMatches(done, d.matches, c.matches);
    NextKeys(side, same, opp);
    if d.blocked {
      BackAside(c.opp, aside, op, d.opp);
    }
  }

  lemma {:induction false} NextKeys(side: Side, same: LevelMap, opp: LevelMap)
    requires Crossed(side, same, opp)
    ensures NextOpp(side, same, opp).Keys <= opp.Keys
    ensures FirstDuel(side, same, opp).blocked ==> Best(side.Opposite(), opp) !in NextOpp(side, same, opp)
  {
    hide FirstDuel;
  }

  lemma {:induction false} BackAside(m: LevelMap, aside: LevelMap, p: Price, q: Queue)
    requires p !in aside
    ensures m[p := q] + aside == m + aside[p := q]
  {
  }

  /** The loop over two crossing levels. `opp` is rotated past self-trades; once all of it has been
      skipped for the front of `same`, that front is rotated aside, at most once around. */
  method DuelLevels(sameLevel: Queue, oppLevel: Queue, side: Side, oppPrice: Price, stamp: nat -> Stamp,
                    trades0: seq<Trade>, index0: map<OrderId, Order>)
    returns (same: Queue, opp: Queue, trades: seq<Trade>, index: map<OrderId, Order>, allSelfTrade: bool)
    ensures var d := Duel(side, sameLevel, oppLevel, oppPrice, |oppLevel|, |oppLevel|,
                          if sameLevel == [] then 0 else |sameLevel| - 1);
            && same == d.same && opp == d.opp && allSelfTrade == d.blocked
            && trades == trades0 + Recorded(d.matches, stamp, |trades0|) && index == index0 - FilledIds(d.matches)
  {
    hide Recorded, FilledIds, Duel;
    same, opp, trades, index, allSelfTrade := sameLevel, oppLevel, trades0, index0, false;
    var initialSame, initialOpp, oppositeSkipped, sameSideRotations := |same|, |opp|, 0, 0;
    ghost var skips: nat, turns: nat := initialOpp, if same == [] then 0 else initialSame - 1;
    ghost var all, ms: seq<Match> := Duel(side, same, opp, oppPrice, initialOpp, skips, turns), [];
    NothingLogged(stamp, |trades0|, index0);
    DuelStarts(side, same, opp, oppPrice, initialOpp, skips, turns);
    while same != [] && opp != []
      invariant (initialSame == 0 ==> same == []) && (initialOpp == 0 ==> opp == [])
      invariant initialSame > 0 ==> turns == initialSame - 1 - sameSideRotations
      invariant skips == initialOpp - oppositeSkipped && (initialOpp > 0 ==> skips > 0)
      invariant !allSelfTrade
      invariant DuelOwes(all, side, same, opp, oppPrice, initialOpp, skips, turns, ms)
      invariant trades == trades0 + Recorded(ms, stamp, |trades0|) && index == index0 - FilledIds(ms)
      decreases |same| + |opp|, turns, skips
    {
      var mine, theirs := same[0], opp[0];
      if mine.user == theirs.user {
        DuelSkips(all, side, same, opp, oppPrice, initialOpp, skips, turns, ms);
        opp := opp[1..] + [theirs];
        oppositeSkipped := oppositeSkipped + 1;
        if oppositeSkipped >= initialOpp && sameSideRotations + 1 < initialSame {
          same := same[1..] + [mine];
          sameSideRotations := sameSideRotations + 1;
          oppositeSkipped := 0;
          turns, skips := turns - 1, initialOpp;
          continue;
        }
        if oppositeSkipped >= initialOpp {
          allSelfTrade := true;
          break;
        }
        skips := skips - 1;
        continue;
      }
      var quantity := Min(mine.remaining, theirs.remaining);
      ghost var m := Pair(side, mine, theirs, oppPrice, quantity);
      DuelFills(all, side, same, opp, oppPrice, initialOpp, skips, turns, ms);
      LogMatch(ms, m, stamp, index0, trades0, trades, index);
      var mineLeft, theirsLeft := mine.Fills(quantity), theirs.Fills(quantity);
      SameTaker(mineLeft, mine);
      if mineLeft.remaining == 0 {
        same := same[1..];
        index := index - {mine.id};
      } else {
        same := [mineLeft] + same[1..];
      }
      if theirsLeft.remaining == 0 {
        opp := opp[1..];
        index := index - {theirs.id};
      } else {
        opp := [theirsLeft] + opp[1..];
      }
      var ours, others := TradeInfo(mine.id, oppPrice, quantity, mine.user),
            TradeInfo(theirs.id, oppPrice, quantity, theirs.user);
      var s := stamp(|trades|);
      trades := trades + [if side.Buy? then Trade(s.id, s.time, ours, others) else Trade(s.id, s.time, others, ours)];
      ms := ms + [m];
    }
    if !allSelfTrade {
      DuelEnds(all, side, same, opp, oppPrice, initialOpp, skips, turns, ms);
    }
  }

  /** The duel still owes exactly the rest of `all`. */
  ghost predicate DuelOwes(all: DuelOut, side: Side, s: Queue, o: Queue, p: Price, n: nat, skips: nat, turns: nat,
                           done: seq<Match>) {
    var d := Duel(side, s, o, p, n, skips, turns); all == d.(matches := done + d.matches)
  }

  lemma {:induction false} DuelStarts(side: Side, s: Queue, o: Queue, p: Price, n: nat, skips: nat, turns: nat)
    ensures DuelOwes(Duel(side, s, o, p, n, skips, turns), side, s, o, p, n, skips, turns, [])
  {
  }

  lemma {:induction false} DuelSkips(all: DuelOut, side: Side, s: Queue, o: Queue, p: Price, n: nat, skips: nat,
                                     turns: nat, done: seq<Match>)
    requires DuelOwes(all, side, s, o, p, n, skips, turns, done) && s != [] && o != [] && s[0].user == o[0].user
    ensures if skips > 1 then DuelOwes(all, side, s, o[1..] + [o[0]], p, n, skips - 1, turns, done)
            else if turns > 0 then DuelOwes(all, side, s[1..] + [s[0]], o[1..] + [o[0]], p, n, n, turns - 1, done)
            else all == DuelOut(s, o[1..] + [o[0]], done, true)
  {
    assert done + [] == done;
  }

  lemma {:induction false} DuelFills(all: DuelOut, side: Side, s: Queue, o: Queue, p: Price, n: nat, skips: nat,
                                     turns: nat, done: seq<Match>)
    requires DuelOwes(all, side, s, o, p, n, skips, turns, done) && s != [] && o != [] && s[0].user != o[0].user
    ensures var k := Min(s[0].remaining, o[0].remaining);
            DuelOwes(all, side, Cut(s, k), Cut(o, k), p, n, skips, turns, done + [Pair(side, s[0], o[0], p, k)])
  {
    var k := Min(s[0].remaining, o[0].remaining);
    AssocMatches(done, [Pair(side, s[0], o[0], p, k)], Duel(side, Cut(s, k), Cut(o, k), p, n, skips, turns).matches);
  }

  lemma {:induction false} DuelEnds(all: DuelOut, side: Side, s: Queue, o: Queue, p: Price, n: nat, skips: nat,
                                    turns: nat, done: seq<Match>)
    requires DuelOwes(all, side, s, o, p, n, skips, turns, done) && (s == [] || o == [])
    ensures all == DuelOut(s, o, done, false)
  {
    assert done + [] == done;
  }
}
