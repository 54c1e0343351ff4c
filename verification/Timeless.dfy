/** Order timestamps never matter: erasing them commutes with matching. */
module Timeless {
  import opened Types
  import opened Levels
  import opened Matching
  import opened Soundness
  import opened Greedy
  import opened Crossing
  import opened OrderBooks

  function Untimed(o: Order): Order {
    o.(timestamp := 0)
  }

  function UntimedQueue(q: Queue): (r: Queue)
    ensures |r| == |q|
  {
    seq(|q|, i requires 0 <= i < |q| => Untimed(q[i]))
  }

  function UntimedLevels(m: LevelMap): (r: LevelMap)
    ensures r.Keys == m.Keys
  {
    map p | p in m :: UntimedQueue(m[p])
  }

  function UntimedMatch(m: Match): Match {
    Match(Untimed(m.bid), Untimed(m.ask), m.price, m.quantity)
  }

  function UntimedMatches(ms: seq<Match>): (r: seq<Match>)
    ensures |r| == |ms|
  {
    seq(|ms|, i requires 0 <= i < |ms| => UntimedMatch(ms[i]))
  }

  lemma {:induction false} UntimedJoin(a: Queue, b: Queue)
    ensures UntimedQueue(a + b) == UntimedQueue(a) + UntimedQueue(b)
  {
  }

  lemma {:induction false} UntimedTail(q: Queue)
    requires q != []
    ensures UntimedQueue(q)[0] == Untimed(q[0]) && UntimedQueue(q)[1..] == UntimedQueue(q[1..])
    ensures UntimedQueue([q[0]]) == [Untimed(q[0])]
    ensures UntimedQueue(q[1..] + [q[0]]) == UntimedQueue(q)[1..] + [UntimedQueue(q)[0]]
  {
  }

  lemma {:induction false} UntimedMore(a: seq<Match>, b: seq<Match>)
    ensures UntimedMatches(a + b) == UntimedMatches(a) + UntimedMatches(b)
  {
  }

  lemma {:induction false} UntimedOne(m: Match, b: seq<Match>)
    ensures UntimedMatches([m] + b) == [UntimedMatch(m)] + UntimedMatches(b)
  {
  }

  lemma {:induction false} UntimedCut(q: Queue, k: Quantity)
    requires q != [] && k <= q[0].remaining
    ensures UntimedQueue(Cut(q, k)) == Cut(UntimedQueue(q), k)
  {
    UntimedTail(q);
    UntimedJoin([q[0].Fills(k)], q[1..]);
  }

  // ---- Levels ----

  lemma {:induction false} UntimedMinus(m: LevelMap, p: Price)
    ensures UntimedLevels(m - {p}) == UntimedLevels(m) - {p}
  {
  }

  lemma {:induction false} UntimedPut(m: LevelMap, p: Price, q: Queue)
    ensures UntimedLevels(m[p := q]) == UntimedLevels(m)[p := UntimedQueue(q)]
    ensures UntimedLevels(Put(m, p, q)) == Put(UntimedLevels(m), p, UntimedQueue(q))
  {
  }

  // ---- A taker that never rests ----

  lemma {:induction false} UntimedSweepLevel(taker: Order, q: Queue, budget: nat)
    ensures var r := SweepLevel(taker, q, budget);
            SweepLevel(Untimed(taker), UntimedQueue(q), budget) ==
            LevelOut(Untimed(r.taker), UntimedQueue(r.queue), UntimedMatches(r.matches), r.blocked)
    decreases taker.remaining, budget + |q|
  {
    if taker.remaining != 0 && q != [] {
      UntimedTail(q);
      if q[0].user == taker.user {
        if budget > 1 {
          UntimedSweepLevel(taker, q[1..] + [q[0]], budget - 1);
        }
      } else {
        var k := Min(taker.remaining, q[0].remaining);
        UntimedCut(q, k);
        UntimedSweepLevel(taker.Fills(k), Cut(q, k), budget);
        UntimedOne(MatchOf(taker, q[0], q[0].price, k), SweepLevel(taker.Fills(k), Cut(q, k), budget).matches);
      }
    }
  }

  lemma {:induction false} UntimedSweep(taker: Order, m: LevelMap)
    ensures var r := Sweep(taker, m);
            Sweep(Untimed(taker), UntimedLevels(m))
              == SweepOut(Untimed(r.taker), UntimedLevels(r.levels), UntimedMatches(r.matches))
    decreases |m|
  {
    hide SweepLevel;
    if taker.remaining != 0 && m != map[] {
      SameBest(taker.side.Opposite(), m, UntimedLevels(m));
      var p := Best(taker.side.Opposite(), m);
      if Crosses(taker.side, taker.price, p) {
        var l := SweepLevel(taker, m[p], |m[p]|);
        var r := Sweep(l.taker, m - {p});
        UntimedSweepLevel(taker, m[p], |m[p]|);
        UntimedSweep(l.taker, m - {p});
        UntimedMinus(m, p);
        UntimedPut(r.levels, p, l.queue);
        UntimedMore(l.matches, r.matches);
      }
    }
  }

  lemma {:induction false} UntimedOthers(user: UserId, q: Queue)
    ensures Others(user, UntimedQueue(q)) == UntimedQueue(Others(user, q))
    decreases q
  {
    if q != [] {
      UntimedTail(q);
      UntimedOthers(user, q[1..]);
      UntimedJoin([q[0]], Others(user, q[1..]));
      assert [] + Others(user, q[1..]) == Others(user, q[1..]);
    }
  }

  lemma {:induction false} UntimedSum(q: Queue)
    ensures Sum(UntimedQueue(q)) == Sum(q)
    decreases q
  {
    if q != [] {
      UntimedTail(q);
      UntimedSum(q[1..]);
    }
  }

  lemma {:induction false} UntimedCandidates(taker: Order, m: LevelMap)
    ensures Candidates(Untimed(taker), UntimedLevels(m)) == UntimedQueue(Candidates(taker, m))
    decreases |m|
  {
    hide Others;
    if m != map[] {
      SameBest(taker.side.Opposite(), m, UntimedLevels(m));
      var p := Best(taker.side.Opposite(), m);
      if Crosses(taker.side, taker.price, p) {
        UntimedMinus(m, p);
        UntimedOthers(taker.user, m[p]);
        UntimedCandidates(taker, m - {p});
        UntimedJoin(Others(taker.user, m[p]), Candidates(taker, m - {p}));
      }
    }
  }

  // ---- A book whose sides may cross ----

  lemma {:induction false} UntimedDuel(side: Side, s: Queue, o: Queue, price: Price, n: nat, skips: nat, turns: nat)
    ensures var d := Duel(side, s, o, price, n, skips, turns);
            Duel(side, UntimedQueue(s), UntimedQueue(o), price, n, skips, turns) ==
            DuelOut(UntimedQueue(d.same), UntimedQueue(d.opp), UntimedMatches(d.matches), d.blocked)
    decreases |s| + |o|, turns, skips
  {
    hide Cut, UntimedMatches;
    if s != [] && o != [] {
      UntimedTail(s);
      UntimedTail(o);
      if s[0].user == o[0].user {
        var o' := o[1..] + [o[0]];
        if skips > 1 {
          UntimedDuel(side, s, o', price, n, skips - 1, turns);
        } else if turns > 0 {
          UntimedDuel(side, s[1..] + [s[0]], o', price, n, n, turns - 1);
        }
      } else {
        var k := Min(s[0].remaining, o[0].remaining);
        UntimedCut(s, k);
        UntimedCut(o, k);
        UntimedDuel(side, Cut(s, k), Cut(o, k), price, n, skips, turns);
        UntimedOne(Pair(side, s[0], o[0], price, k), Duel(side, Cut(s, k), Cut(o, k), price, n, skips, turns).matches);
      }
    }
  }

  lemma {:induction false} UntimedCrossed(side: Side, same: LevelMap, opp: LevelMap)
    ensures Crossed(side, UntimedLevels(same), UntimedLevels(opp)) == Crossed(side, same, opp)
    ensures Crossed(side, same, opp) ==>
              && Best(side, UntimedLevels(same)) == Best(side, same)
              && Best(side.Opposite(), UntimedLevels(opp)) == Best(side.Opposite(), opp)
  {
    if same != map[] && opp != map[] {
      SameBest(side, same, UntimedLevels(same));
      SameBest(side.Opposite(), opp, UntimedLevels(opp));
    }
  }

  lemma {:induction false} UntimedFirstDuel(side: Side, same: LevelMap, opp: LevelMap)
    requires Crossed(side, same, opp)
    ensures Crossed(side, UntimedLevels(same), UntimedLevels(opp))
    ensures var d := FirstDuel(side, same, opp);
            FirstDuel(side, UntimedLevels(same), UntimedLevels(opp)) ==
            DuelOut(UntimedQueue(d.same), UntimedQueue(d.opp), UntimedMatches(d.matches), d.blocked)
  {
    hide Duel, Crossed;
    UntimedCrossed(side, same, opp);
    var op := Best(side.Opposite(), opp);
    var s, o := same[Best(side, same)], opp[op];
    UntimedDuel(side, s, o, op, |o|, |o|, if s == [] then 0 else |s| - 1);
  }

  lemma {:induction false} UntimedNext(side: Side, same: LevelMap, opp: LevelMap)
    requires Crossed(side, same, opp) && Crossed(side, UntimedLevels(same), UntimedLevels(opp))
    ensures NextSame(side, UntimedLevels(same), UntimedLevels(opp)) == UntimedLevels(NextSame(side, same, opp))
    ensures NextOpp(side, UntimedLevels(same), UntimedLevels(opp)) == UntimedLevels(NextOpp(side, same, opp))
  {
    hide FirstDuel, Crossed, UntimedLevels, UntimedQueue, Put;
    UntimedFirstDuel(side, same, opp);
    UntimedCrossed(side, same, opp);
    var d, op := FirstDuel(side, same, opp), Best(side.Opposite(), opp);
    UntimedPut(same, Best(side, same), d.same);
    UntimedPut(opp, op, d.opp);
    UntimedMinus(opp, op);
  }

  lemma {:induction false} UntimedClear(side: Side, same: LevelMap, opp: LevelMap)
    ensures var c := Clear(side, same, opp);
            Clear(side, UntimedLevels(same), UntimedLevels(opp)) ==
            ClearOut(UntimedLevels(c.same), UntimedLevels(c.opp), UntimedMatches(c.matches))
    decreases |same| + |opp|
  {
    hide FirstDuel, Crossed, UntimedLevels, UntimedQueue, NextSame, NextOpp;
    UntimedCrossed(side, same, opp);
    if Crossed(side, same, opp) {
      NextShrinks(side, same, opp);
      UntimedFirstDuel(side, same, opp);
      UntimedNext(side, same, opp);
      UntimedClear(side, NextSame(side, same, opp), NextOpp(side, same, opp));
      var d := FirstDuel(side, same, opp);
      var r := Clear(side, NextSame(side, same, opp), NextOpp(side, same, opp));
      UntimedPut(r.opp, Best(side.Opposite(), opp), d.opp);
      UntimedMore(d.matches, r.matches);
    }
  }

  // ---- The book ----

  function UntimedBook(b: Book): (r: Book)
    ensures r.index.Keys == b.index.Keys
  {
    Book(UntimedLevels(b.bids), UntimedLevels(b.asks), UntimedIndex(b.index))
  }

  function UntimedIndex(index: map<OrderId, Order>): (r: map<OrderId, Order>)
    ensures r.Keys == index.Keys
  {
    map id | id in index :: Untimed(index[id])
  }

  lemma {:induction false} UntimedSide(b: Book, side: Side, m: LevelMap)
    ensures UntimedBook(b).Side(side) == UntimedLevels(b.Side(side))
    ensures UntimedBook(b.WithSide(side, m)) == UntimedBook(b).WithSide(side, UntimedLevels(m))
  {
  }

  lemma {:induction false} UntimedEntry(index: map<OrderId, Order>, id: OrderId, o: Order)
    ensures UntimedIndex(index[id := o]) == UntimedIndex(index)[id := Untimed(o)]
  {
  }

  lemma {:induction false} UntimedLess(index: map<OrderId, Order>, ids: set<OrderId>)
    ensures UntimedIndex(index - ids) == UntimedIndex(index) - ids
  {
  }

  lemma {:induction false} UntimedFilled(ms: seq<Match>)
    ensures FilledIds(UntimedMatches(ms)) == FilledIds(ms)
    decreases ms
  {
    if ms != [] {
      UntimedFilled(ms[1..]);
      assert UntimedMatches(ms)[1..] == UntimedMatches(ms[1..]);
    }
  }

  lemma {:induction false} UntimedSweepBook(b: Book, o: Order)
    ensures var (b', ms) := SweepBook(b, o);
            SweepBook(UntimedBook(b), Untimed(o)) == (UntimedBook(b'), UntimedMatches(ms))
  {
    hide Sweep, FilledIds, UntimedLevels, UntimedIndex;
    var w := Sweep(o, b.Side(o.side.Opposite()));
    UntimedSide(b, o.side.Opposite(), w.levels);
    UntimedSweep(o, b.Side(o.side.Opposite()));
    UntimedFilled(w.matches);
    UntimedLess(b.index, FilledIds(w.matches));
  }

  lemma {:induction false} UntimedEnter(o: Order, m: LevelMap)
    ensures Enter(Untimed(o), UntimedLevels(m)) == UntimedLevels(Enter(o, m))
  {
    UntimedJoin(At(m, o.price), [o]);
    assert UntimedQueue([o]) == [Untimed(o)];
    assert At(UntimedLevels(m), o.price) == UntimedQueue(At(m, o.price));
  }

  lemma {:induction false} UntimedEnterBook(b: Book, o: Order)
    ensures var (b', ms) := EnterBook(b, o);
            EnterBook(UntimedBook(b), Untimed(o)) == (UntimedBook(b'), UntimedMatches(ms))
  {
    hide Clear, Enter, FilledIds, UntimedLevels, UntimedIndex;
    var same, opp := Enter(o, b.Side(o.side)), b.Side(o.side.Opposite());
    var c := Clear(o.side, same, opp);
    UntimedSide(b, o.side, c.same);
    UntimedSide(b.WithSide(o.side, c.same), o.side.Opposite(), c.opp);
    UntimedEnter(o, b.Side(o.side));
    UntimedClear(o.side, same, opp);
    UntimedFilled(c.matches);
    UntimedEntry(b.index, o.id, o);
    UntimedLess(b.index[o.id := o], FilledIds(c.matches));
  }

  lemma {:induction false} UntimedAdd(b: Book, o: Order)
    ensures var (b', r) := Add(b, o);
            Add(UntimedBook(b), Untimed(o))
              == (UntimedBook(b'), if r == None then None else Some(UntimedMatches(r.value)))
  {
    hide SweepBook, EnterBook, Candidates, Sum;
    var m := b.Side(o.side.Opposite());
    if o.kind.Rests() {
      UntimedEnterBook(b, o);
    } else {
      if m != map[] {
        SameBest(o.side.Opposite(), m, UntimedLevels(m));
      }
      UntimedCandidates(o, m);
      UntimedSum(Candidates(o, m));
      UntimedSweepBook(b, o);
    }
  }

  lemma {:induction false} UntimedWithout(q: Queue, id: OrderId)
    ensures Without(UntimedQueue(q), id) == UntimedQueue(Without(q, id))
    decreases q
  {
    if q != [] {
      UntimedTail(q);
      UntimedWithout(q[1..], id);
      UntimedJoin([q[0]], Without(q[1..], id));
      assert [] + Without(q[1..], id) == Without(q[1..], id);
    }
  }

  lemma {:induction false} UntimedCancel(b: Book, id: OrderId)
    ensures var (b', r) := Cancel(b, id);
            Cancel(UntimedBook(b), id) == (UntimedBook(b'), if r == None then None else Some(Untimed(r.value)))
  {
    hide Without, UntimedLevels, UntimedQueue, Put;
    if id in b.index {
      var o := b.index[id];
      var m := b.Side(o.side);
      UntimedSide(b, o.side, if o.price in m then Put(m, o.price, Without(m[o.price], id)) else m);
      UntimedLess(b.index, {id});
      if o.price in m {
        UntimedWithout(m[o.price], id);
        UntimedPut(m, o.price, Without(m[o.price], id));
        UntimedAt(m, o.price);
      }
    }
  }

  lemma {:induction false} UntimedAt(m: LevelMap, p: Price)
    requires p in m
    ensures p in UntimedLevels(m) && UntimedLevels(m)[p] == UntimedQueue(m[p])
  {
  }

  lemma {:induction false} UntimedOthersOnly(m: LevelMap, user: UserId)
    ensures OthersOnly(UntimedLevels(m), user) == UntimedLevels(OthersOnly(m, user))
  {
    hide Others;
    forall p | p in m
      ensures Others(user, UntimedLevels(m)[p]) == UntimedQueue(Others(user, m[p]))
    {
      UntimedOthers(user, m[p]);
    }
  }

  lemma {:induction false} UntimedCancelUser(b: Book, user: UserId)
    ensures CancelUser(UntimedBook(b), user) == UntimedBook(CancelUser(b, user))
  {
    hide OthersOnly, UntimedLevels;
    UntimedOthersOnly(b.bids, user);
    UntimedOthersOnly(b.asks, user);
    assert IdsOf(UntimedBook(b).index, user) == IdsOf(b.index, user);
  }
}
