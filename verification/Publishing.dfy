/** What published trades say: who traded with whom, at which price, and how much of each order is gone. */
module Publishing {
  import opened Types
  import opened Levels
  import opened Soundness
  import opened Greedy
  import opened OrderBooks
  import opened BookLaws
  import opened Engine
  import opened Settlement
  import opened EngineLaws
  import opened CoreEngines
  import opened Spread

  /** What the trade list publishes for the order `id`, on either side. */
  function Published(ts: seq<Trade>, id: OrderId): nat {
    if ts == [] then 0
    else
      (if ts[0].bid.orderId == id then ts[0].bid.quantity else 0)
      + (if ts[0].ask.orderId == id then ts[0].ask.quantity else 0)
      + Published(ts[1..], id)
  }

  /** `info` speaks of the order `x`. */
  predicate SpeaksOf(info: TradeInfo, x: Order) {
    info.orderId == x.id && info.user == x.user
  }

  /** Both sides of the trade carry one quantity and one price, within the limits of the bid `x` and the ask `y`. */
  predicate Fair(t: Trade, x: Order, y: Order) {
    && SpeaksOf(t.bid, x) && SpeaksOf(t.ask, y) && x.side == Buy && y.side == Sell && x.user != y.user
    && t.bid.price == t.ask.price && y.price <= t.bid.price <= x.price
    && t.bid.quantity == t.ask.quantity && t.bid.quantity > 0
  }

  /** The trade is between two of the orders `live`. */
  ghost predicate FairIn(t: Trade, live: set<Order>) {
    exists x, y :: x in live && y in live && Fair(t, x, y)
  }

  lemma {:induction false} MatchedLive(live: set<Order>, ms: seq<Match>, i: nat) returns (x: Order, y: Order)
    requires LegalRun(live, ms) && i < |ms|
    ensures x in live && y in live && x.Fixed() == ms[i].bid.Fixed() && y.Fixed() == ms[i].ask.Fixed()
    decreases ms
  {
    if i == 0 {
      x, y := ms[0].bid, ms[0].ask;
    } else {
      x, y := MatchedLive(Step(live, ms[0]), ms[1..], i - 1);
      x := Earlier(live, ms[0], x);
      y := Earlier(live, ms[0], y);
    }
  }

  lemma {:induction false} Earlier(live: set<Order>, m: Match, x: Order) returns (was: Order)
    requires x in Step(live, m) && m.bid in live && m.ask in live
    ensures was in live && was.Fixed() == x.Fixed()
  {
    was := if x in live then x else if x == m.bid.Fills(m.quantity) then m.bid else m.ask;
  }

  /** Every published trade is fair, between orders that were live when the run began. */
  lemma {:induction false} AllFair(live: set<Order>, ms: seq<Match>, ts: seq<Trade>, stamp: nat -> Stamp, i: nat)
    requires LegalRun(live, ms) && ts == Recorded(ms, stamp, 0) && i < |ts|
    ensures FairIn(ts[i], live) && ts[i].tradeId == stamp(i).id && ts[i].timestamp == stamp(i).time
  {
    hide LegalRun;
    EveryMatchLegal(live, ms, i);
    var x, y := MatchedLive(live, ms, i);
    SameTaker(x, ms[i].bid);
    SameTaker(y, ms[i].ask);
    assert Fair(ts[i], x, y);
  }

  lemma {:induction false} PublishedIsTraded(ms: seq<Match>, stamp: nat -> Stamp, from: nat, id: OrderId)
    ensures Published(Recorded(ms, stamp, from), id) == Soundness.Traded(ms, id)
    decreases ms
  {
    if ms != [] {
      var ts := Recorded(ms, stamp, from);
      assert ts[1..] == Recorded(ms[1..], stamp, from + 1);
      PublishedIsTraded(ms[1..], stamp, from + 1, id);
    }
  }

  lemma {:induction false} LeftWithout(os: set<Order>, extra: set<Order>, id: OrderId)
    requires UniqueIds(os + extra) && UniqueIds(os) && forall x :: x in extra ==> x.id != id
    ensures Left(os + extra, id) == Left(os, id)
  {
    if x :| x in os + extra && x.id == id {
      LeftOf(os + extra, x);
      LeftOf(os, x);
    }
  }

  /** The trades are fair, under the ids and times drawn for them; what is published for a resting order is what
      its remainder falls by, whatever its side; for an order that never rests it is all it asks for, or all that
      other users offer at its price if that is less. */
  ghost predicate Publishes(b: Book, o: Order, b': Book, ts: seq<Trade>, stamp: nat -> Stamp) {
    && b'.Valid() && o.id !in b.index
    && (forall i :: 0 <= i < |ts| ==> FairIn(ts[i], b.Orders() + {o})
                                      && ts[i].tradeId == stamp(i).id && ts[i].timestamp == stamp(i).time)
    && (forall x :: x in b.Orders() ==> Published(ts, x.id) == x.remaining - Left(b'.Orders(), x.id))
    && (o.kind.Rests() ==> Published(ts, o.id) == o.remaining - Left(b'.Orders(), o.id))
    && var offered := Sum(Candidates(o, OppositeOf(b, o)));
       !o.kind.Rests() ==> Published(ts, o.id) == if offered < o.remaining then offered else o.remaining
  }

  /** What the book publishes, from any well-formed book. */
  lemma {:induction false} PublishedLaw(b: Book, o: Order, ts: seq<Trade>, stamp: nat -> Stamp)
    requires b.Valid() && o.remaining > 0 && Add(b, o).1.Some? && ts == Recorded(Add(b, o).1.value, stamp, 0)
    ensures Publishes(b, o, Add(b, o).0, ts, stamp)
  {
    hide Add, Recorded, LegalRun, After, UniqueIds, LevelsOk, Sum, Candidates, Fold, FoldTaker, Left, Published, FairIn,
      Soundness.Traded;
    var b', ms, live := Add(b, o).0, Add(b, o).1.value, b.Orders() + {o};
    var discarded := AddSound(b, o);
    NewIsApart(b, o);
    ValidUnique(b');
    forall i | 0 <= i < |ts|
      ensures FairIn(ts[i], live) && ts[i].tradeId == stamp(i).id && ts[i].timestamp == stamp(i).time
    {
      AllFair(live, ms, ts, stamp, i);
    }
    forall x | x in live && (x != o || o.kind.Rests())
      ensures Published(ts, x.id) == x.remaining - Left(b'.Orders(), x.id)
    {
      PublishedIsTraded(ms, stamp, 0, x.id);
      TradedIsTheFall(live, ms, x.id);
      LeftOf(live, x);
      forall y | y in discarded
        ensures y.id != x.id
      {
        SameTaker(y, o);
      }
      LeftWithout(b'.Orders(), discarded, x.id);
    }
    if !o.kind.Rests() {
      PublishedIsTraded(ms, stamp, 0, o.id);
      TakerLaw(b, o);
      OppositeIds(b, o);
      FoldTakes(o, Candidates(o, OppositeOf(b, o)));
      FoldLeaves(o, Candidates(o, OppositeOf(b, o)));
    }
  }

  /** What the engine answers when an order trades. */
  lemma {:induction false} PlacingPublishes(s: State, g: Gains, pair: TradingPair, o: Order, answer: Answer,
                                            stamp: nat -> Stamp)
    requires Inv(s, g, Nothing) && AsNew(o) && Answers(answer, AddOrder(s, pair, o).1, stamp) && answer.Trades?
    ensures pair in s.books && pair in AddOrder(s, pair, o).0.books
    ensures Publishes(s.books[pair], o, AddOrder(s, pair, o).0.books[pair], answer.trades, stamp)
  {
    hide Inv, AddOrder, Add, Book.Valid, Publishes, Recorded;
    BooksPlaced(s, pair, o);
    BookOf(s, g, pair);
    PublishedLaw(s.books[pair], o, answer.trades, stamp);
  }

  /** The same when a modify trades, from the book without the old order. */
  lemma {:induction false} ModifyPublishes(s: State, g: Gains, pair: TradingPair, m: OrderModify, now: Timestamp,
                                           answer: Answer, stamp: nat -> Stamp)
    requires Inv(s, g, Nothing) && Answers(answer, ModifyOrder(s, pair, m, now).1, stamp) && answer.Trades?
    ensures pair in s.books && m.id in s.books[pair].index && pair in ModifyOrder(s, pair, m, now).0.books
    ensures Publishes(Cancel(s.books[pair], m.id).0, Replacement(s.books[pair].index[m.id], m, now),
                      ModifyOrder(s, pair, m, now).0.books[pair], answer.trades, stamp)
  {
    hide Inv, AddOrder, Add, Cancel, ModifyRefused, Publishes, Recorded;
    ModifyOrderLaw(s, g, pair, m, now);
    ModifyIsCancelThenAdd(s, g, pair, m, now);
    CancelOrderLaw(s, g, pair, m.id);
    PlacingPublishes(CancelOrder(s, pair, m.id).0, g - {m.id}, pair, Replacement(s.books[pair].index[m.id], m, now),
                     answer, stamp);
  }
}
