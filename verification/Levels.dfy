/** One side of the book: price levels, each a FIFO queue, as sorted map from price to queue. */
module Levels {
  import opened Types

  type Queue = seq<Order>
  type LevelMap = map<Price, Queue>

  /** Priority of a resting price: the lowest rank is the best price (lowest ask, highest bid). */
  function Rank(side: Side, p: Price): int {
    if side.Sell? then p as int else -(p as int)
  }

  /** Whether a taker on `side` with limit `limit` may trade at the opposite price `p`. */
  predicate Crosses(side: Side, limit: Price, p: Price) {
    if side.Buy? then limit >= p else limit <= p
  }

  ghost predicate IsBest(side: Side, prices: set<Price>, p: Price) {
    p in prices && forall q :: q in prices ==> Rank(side, p) <= Rank(side, q)
  }

  lemma {:induction false} FindBest(side: Side, prices: set<Price>) returns (best: Price)
    requires prices != {}
    ensures IsBest(side, prices, best)
  {
    hide Rank;
    best :| best in prices;
    var rest := prices - {best};
    if rest != {} {
      var b := FindBest(side, rest);
      assert forall q :: q in prices ==> q == best || q in rest;
      if Rank(side, b) < Rank(side, best) {
        best := b;
      }
    } else {
      assert prices == {best};
    }
  }

  lemma {:induction false} BestExists(side: Side, prices: set<Price>)
    requires prices != {}
    ensures exists p :: IsBest(side, prices, p)
  {
    var _ := FindBest(side, prices);
  }

  /** First key of the asks, last key of the bids. */
  function Best(side: Side, m: LevelMap): (p: Price)
    requires m != map[]
    ensures p in m
    ensures forall q :: q in m ==> Rank(side, p) <= Rank(side, q)
  {
    BestExists(side, m.Keys);
    var p :| p in m && forall q :: q in m ==> Rank(side, p) <= Rank(side, q);
    p
  }

  /** Writes a queue back; an emptied level is dropped. */
  function Put(m: LevelMap, p: Price, q: Queue): LevelMap {
    if q == [] then m - {p} else m[p := q]
  }

  function Elems(q: Queue): set<Order> {
    set o | o in q
  }

  /** All orders resting in a level map. */
  function Pool(m: LevelMap): set<Order> {
    set p, o | p in m && o in m[p] :: o
  }

  function Ids(os: set<Order>): set<OrderId> {
    set o | o in os :: o.id
  }

  ghost predicate UniqueIds(os: set<Order>) {
    forall o, o' :: o in os && o' in os && o.id == o'.id ==> o == o'
  }

  ghost predicate Distinct(q: Queue) {
    forall i, j :: 0 <= i < j < |q| ==> q[i].id != q[j].id
  }

  /** Every order of the queue lies on `side`, under its own price, with something left to fill. */
  ghost predicate QueueOk(side: Side, p: Price, q: Queue) {
    && Distinct(q)
    && forall o :: o in q ==> o.side == side && o.price == p && o.remaining > 0
  }

  ghost predicate LevelsOk(side: Side, m: LevelMap) {
    forall p :: p in m ==> m[p] != [] && QueueOk(side, p, m[p])
  }

  lemma {:induction false} PoolSplit(m: LevelMap, p: Price)
    requires p in m
    ensures Pool(m) == Elems(m[p]) + Pool(m - {p})
  {
    forall o | o in Pool(m)
      ensures o in Elems(m[p]) + Pool(m - {p})
    {
      var p' :| p' in m && o in m[p'];
      if p' != p {
        assert p' in m - {p} && (m - {p})[p'] == m[p'];
      }
    }
  }

  lemma {:induction false} PoolPut(m: LevelMap, p: Price, q: Queue)
    ensures Pool(Put(m, p, q)) == Elems(q) + Pool(m - {p})
  {
    if q == [] {
      assert Elems(q) == {};
    } else {
      PoolSplit(m[p := q], p);
      assert m[p := q] - {p} == m - {p};
    }
  }

  /** `x` stands somewhere in front of `y`. */
  ghost predicate Before(q: Queue, x: Order, y: Order) {
    exists k, l :: 0 <= k < l < |q| && q[k] == x && q[l] == y
  }

  /** Whoever stands in front of another in `q'` does so in `q`. */
  ghost predicate KeepsOrder(q': Queue, q: Queue) {
    forall i, j :: 0 <= i < j < |q'| ==> Before(q, q'[i], q'[j])
  }

  lemma {:induction false} BeforeInTail(q: Queue, x: Order, y: Order)
    requires q != []
    ensures Before(q[1..], x, y) ==> Before(q, x, y)
    ensures y in q[1..] ==> Before(q, q[0], y)
  {
    if Before(q[1..], x, y) {
      var k, l :| 0 <= k < l < |q[1..]| && q[1..][k] == x && q[1..][l] == y;
      assert q[k + 1] == x && q[l + 1] == y;
    }
    if y in q[1..] {
      var l :| 0 <= l < |q[1..]| && q[1..][l] == y;
      assert q[l + 1] == y;
    }
  }

  /** Leaving out the front, or keeping it, keeps the order if the rest does. */
  lemma {:induction false} OrderFromTail(q': Queue, q: Queue)
    requires q != [] && KeepsOrder(q', q[1..])
    ensures KeepsOrder(q', q)
    ensures (forall x :: x in q' ==> x in q[1..]) ==> KeepsOrder([q[0]] + q', q)
  {
    hide Before;
    forall x, y
      ensures Before(q[1..], x, y) ==> Before(q, x, y)
      ensures y in q[1..] ==> Before(q, q[0], y)
    {
      BeforeInTail(q, x, y);
    }
    if forall x :: x in q' ==> x in q[1..] {
      var all := [q[0]] + q';
      forall i, j | 0 <= i < j < |all|
        ensures Before(q, all[i], all[j])
      {
        assert all[j] == q'[j - 1] && all[j] in q';
        assert i > 0 ==> all[i] == q'[i - 1];
      }
    }
  }

  /** `x` is `y` turned round, with only orders of `user` sent to the back. */
  ghost predicate IsRotation(x: Queue, y: Queue, user: UserId) {
    exists k :: 0 <= k <= |y| && x == y[k..] + y[..k] && forall o :: o in y[..k] ==> o.user == user
  }
}
