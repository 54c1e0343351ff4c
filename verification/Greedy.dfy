/** The reference matcher: one pass over other users' crossing orders, best price first, then queue order. */
module Greedy {
  import opened Types
  import opened Levels
  import opened Matching
  import opened Soundness

  /** The orders of `q` that `user` may trade with, in queue order. */
  function Others(user: UserId, q: Queue): Queue {
    if q == [] then [] else (if q[0].user == user then [] else [q[0]]) + Others(user, q[1..])
  }

  /** Everything `taker` may trade with, in priority order. */
  function Candidates(taker: Order, m: LevelMap): Queue
    decreases |m|
  {
    if m == map[] then []
    else
      var p := Best(taker.side.Opposite(), m);
      if !Crosses(taker.side, taker.price, p) then []
      else Others(taker.user, m[p]) + Candidates(taker, m - {p})
  }

  /** Fill from the candidates in order until the taker is done. */
  function Fold(taker: Order, c: Queue): seq<Match>
    decreases c
  {
    if taker.remaining == 0 || c == [] then []
    else
      var k := Min(taker.remaining, c[0].remaining);
      [MatchOf(taker, c[0], c[0].price, k)] + Fold(taker.Fills(k), c[1..])
  }

  /** The taker after the fold. */
  function FoldTaker(taker: Order, c: Queue): (r: Order)
    ensures r.Fixed() == taker.Fixed()
    decreases c
  {
    if taker.remaining == 0 || c == [] then taker
    else FoldTaker(taker.Fills(Min(taker.remaining, c[0].remaining)), c[1..])
  }

  function Sum(q: Queue): nat {
    if q == [] then 0 else q[0].remaining + Sum(q[1..])
  }

  lemma {:induction false} FoldAppend(taker: Order, c: Queue, d: Queue)
    ensures Fold(taker, c + d) == Fold(taker, c) + Fold(FoldTaker(taker, c), d)
    ensures FoldTaker(taker, c + d) == FoldTaker(FoldTaker(taker, c), d)
    decreases c
  {
    if c == [] {
      assert c + d == d;
    } else if taker.remaining > 0 {
      var k := Min(taker.remaining, c[0].remaining);
      FoldAppend(taker.Fills(k), c[1..], d);
      assert (c + d)[1..] == c[1..] + d && (c + d)[0] == c[0];
      AssocMatches([MatchOf(taker, c[0], c[0].price, k)], Fold(taker.Fills(k), c[1..]), Fold(FoldTaker(taker, c), d));
    }
  }

  lemma {:induction false} Assoc(x: Queue, y: Queue, z: Queue)
    ensures x + (y + z) == x + y + z
  {
  }

  lemma {:induction false} AssocMatches(x: seq<Match>, y: seq<Match>, z: seq<Match>)
    ensures x + (y + z) == x + y + z
  {
  }

  lemma {:induction false} OthersAppend(user: UserId, q: Queue, r: Queue)
    ensures Others(user, q + r) == Others(user, q) + Others(user, r)
  {
    if q == [] {
      assert q + r == r;
    } else {
      OthersAppend(user, q[1..], r);
      assert (q + r)[1..] == q[1..] + r && (q + r)[0] == q[0];
      Assoc(if q[0].user == user then [] else [q[0]], Others(user, q[1..]), Others(user, r));
    }
  }

  lemma {:induction false} OthersOfOwn(user: UserId, q: Queue)
    requires forall o :: o in q ==> o.user == user
    ensures Others(user, q) == []
  {
    if q != [] {
      OthersOfOwn(user, q[1..]);
    }
  }

  lemma {:induction false} OthersMembers(user: UserId, q: Queue)
    ensures forall o :: o in Others(user, q) <==> o in q && o.user != user
  {
    if q != [] {
      OthersMembers(user, q[1..]);
      assert q == [q[0]] + q[1..];
    }
  }

  lemma {:induction false} OthersInOrder(user: UserId, q: Queue)
    ensures KeepsOrder(Others(user, q), q)
  {
    if q != [] {
      OthersInOrder(user, q[1..]);
      OthersMembers(user, q[1..]);
      OrderFromTail(Others(user, q[1..]), q);
      assert [] + Others(user, q[1..]) == Others(user, q[1..]);
    }
  }

  /** `x` has priority over `y` for a taker on `side`: a better price, or the same price and in front of it in
      that level's queue. */
  ghost predicate Precedes(side: Side, m: LevelMap, x: Order, y: Order) {
    || (if side.Buy? then x.price < y.price else x.price > y.price)
    || (x.price == y.price && x.price in m && Before(m[x.price], x, y))
  }

  /** The candidates are in price-time priority. */
  lemma {:induction false} CandidatesByPriority(taker: Order, m: LevelMap, i: nat, j: nat)
    requires LevelsOk(taker.side.Opposite(), m) && i < j < |Candidates(taker, m)|
    ensures Precedes(taker.side, m, Candidates(taker, m)[i], Candidates(taker, m)[j])
    decreases |m|
  {
    hide LevelsOk, QueueOk, Candidates, Others, Before;
    var p, front, rest := FrontCandidates(taker, m);
    if j < |front| {
      OthersInOrder(taker.user, m[p]);
    } else if i >= |front| {
      RestOk(taker.side.Opposite(), m, p);
      CandidatesByPriority(taker, m - {p}, i - |front|, j - |front|);
    } else {
      assert front[i] in front && rest[j - |front|] in rest;
    }
  }

  /** Unless there are none, candidates start with the best level's, and all others have a worse price. */
  lemma {:induction false} FrontCandidates(taker: Order, m: LevelMap) returns (p: Price, front: Queue, rest: Queue)
    requires LevelsOk(taker.side.Opposite(), m) && Candidates(taker, m) != []
    ensures p in m && front == Others(taker.user, m[p]) && rest == Candidates(taker, m - {p})
    ensures Candidates(taker, m) == front + rest
    ensures forall x :: x in front ==> x.price == p
    ensures forall x :: x in rest ==> if taker.side.Buy? then p < x.price else p > x.price
  {
    p := Best(taker.side.Opposite(), m);
    front, rest := Others(taker.user, m[p]), Candidates(taker, m - {p});
    OthersMembers(taker.user, m[p]);
    RestOk(taker.side.Opposite(), m, p);
    CandidateMembers(taker, m - {p});
  }

  lemma {:induction false} RestOk(side: Side, m: LevelMap, p: Price)
    requires LevelsOk(side, m)
    ensures LevelsOk(side, m - {p})
  {
  }

  lemma {:induction false} CandidateMembers(taker: Order, m: LevelMap)
    requires LevelsOk(taker.side.Opposite(), m)
    ensures forall o :: o in Candidates(taker, m)
                   <==> o in Pool(m) && o.user != taker.user && Crosses(taker.side, taker.price, o.price)
    decreases |m|
  {
    if m != map[] {
      var p := Best(taker.side.Opposite(), m);
      if Crosses(taker.side, taker.price, p) {
        OthersMembers(taker.user, m[p]);
        CandidateMembers(taker, m - {p});
        PoolSplit(m, p);
      }
    }
  }

  // ---- The level loop is the fold ----

  /** The rotating loop trades exactly what one pass in queue order trades. */
  lemma {:induction false} SweepLevelIsFold(taker: Order, q: Queue, budget: nat)
    requires forall i :: budget <= i < |q| ==> q[i].user == taker.user
    ensures var r := SweepLevel(taker, q, budget);
            && r.matches == Fold(taker, Others(taker.user, q))
            && r.taker == FoldTaker(taker, Others(taker.user, q))
            && (r.taker.remaining > 0 ==> forall o :: o in r.queue ==> o.user == taker.user)
    decreases taker.remaining, budget + |q|
  {
    if taker.remaining == 0 || q == [] {
    } else if q[0].user == taker.user {
      var t := q[1..] + [q[0]];
      OthersAppend(taker.user, q[1..], [q[0]]);
      assert Others(taker.user, t) == Others(taker.user, q);
      if budget > 1 {
        SweepLevelIsFold(taker, t, budget - 1);
      } else {
        OthersOfOwn(taker.user, q);
      }
    } else {
      var k := Min(taker.remaining, q[0].remaining);
      SweepLevelIsFold(taker.Fills(k), Cut(q, k), budget);
      if k == q[0].remaining {
        assert Cut(q, k) == q[1..];
      }
    }
  }

  /** From any book, a FAK or FOK sweep emits exactly the reference fold's matches. */
  lemma {:induction false} SweepIsFold(taker: Order, m: LevelMap)
    ensures Sweep(taker, m).matches == Fold(taker, Candidates(taker, m))
    ensures Sweep(taker, m).taker == FoldTaker(taker, Candidates(taker, m))
    decreases |m|
  {
    if taker.remaining == 0 || m == map[] { return; }
    var p := Best(taker.side.Opposite(), m);
    if !Crosses(taker.side, taker.price, p) { return; }
    var l := SweepLevel(taker, m[p], |m[p]|);
    SweepLevelIsFold(taker, m[p], |m[p]|);
    SweepIsFold(l.taker, m - {p});
    SameCandidates(taker, l.taker, m - {p});
    FoldAppend(taker, Others(taker.user, m[p]), Candidates(taker, m - {p}));
  }

  /** Candidates depend only on the taker's side, limit and owner. */
  lemma {:induction false} SameCandidates(a: Order, b: Order, m: LevelMap)
    requires a.Fixed() == b.Fixed()
    ensures Candidates(a, m) == Candidates(b, m)
    decreases |m|
  {
    assert a.Fixed().side == a.side && a.Fixed().price == a.price && a.Fixed().user == a.user;
    assert b.Fixed().side == b.side && b.Fixed().price == b.price && b.Fixed().user == b.user;
    if m != map[] {
      SameCandidates(a, b, m - {Best(a.side.Opposite(), m)});
    }
  }

  // ---- How much is taken, and from whom ----

  /** What the taker trades is what it then needs less. */
  lemma {:induction false} FoldTakes(taker: Order, c: Queue)
    requires forall x :: x in c ==> x.id != taker.id
    ensures Traded(Fold(taker, c), taker.id) + FoldTaker(taker, c).remaining == taker.remaining
    decreases c
  {
    if taker.remaining > 0 && c != [] {
      var k := Min(taker.remaining, c[0].remaining);
      assert taker.Fills(k).id == taker.id;
      FoldTakes(taker.Fills(k), c[1..]);
      TradedAppend([MatchOf(taker, c[0], c[0].price, k)], Fold(taker.Fills(k), c[1..]), taker.id);
      assert c[0] in c;
    }
  }

  /** The taker is left with exactly what the candidates cannot cover. */
  lemma {:induction false} FoldLeaves(taker: Order, c: Queue)
    ensures FoldTaker(taker, c).remaining == if taker.remaining <= Sum(c) then 0 else taker.remaining - Sum(c)
    decreases c
  {
    if taker.remaining > 0 && c != [] {
      FoldLeaves(taker.Fills(Min(taker.remaining, c[0].remaining)), c[1..]);
    }
  }

  function Resting(taker: Order, m: Match): Order {
    if taker.side.Buy? then m.ask else m.bid
  }

  /** Candidates are used up strictly in order: the i-th match is with the i-th candidate, and every one
      but the last is filled whole. */
  lemma {:induction false} FoldInOrder(taker: Order, c: Queue, i: nat)
    requires i < |Fold(taker, c)|
    ensures i < |c| && Resting(taker, Fold(taker, c)[i]) == c[i]
    ensures i + 1 < |Fold(taker, c)| ==> Fold(taker, c)[i].quantity == c[i].remaining
    decreases c
  {
    var k := Min(taker.remaining, c[0].remaining);
    if i > 0 {
      FoldInOrder(taker.Fills(k), c[1..], i - 1);
    }
  }

  // ---- What becomes of each level ----

  /** What remains of a single order. */
  function Rest(o: Order, ms: seq<Match>): Queue {
    var t := Traded(ms, o.id);
    if t == 0 then [o] else if t >= o.remaining then [] else [o.Fills(t)]
  }

  /** `q` with the traded quantities taken off and the filled orders gone, in unchanged order. */
  function Remains(q: Queue, ms: seq<Match>): Queue {
    if q == [] then []
    else
      Rest(q[0], ms) + Remains(q[1..], ms)
  }

  /** `ms` trades none of the orders in `q`. */
  ghost predicate Untouched(q: Queue, ms: seq<Match>) {
    forall o :: o in q ==> Traded(ms, o.id) == 0
  }

  lemma {:induction false} FoldTouches(taker: Order, c: Queue, id: OrderId)
    requires id != taker.id && forall o :: o in c ==> o.id != id
    ensures Traded(Fold(taker, c), id) == 0
    decreases c
  {
    if taker.remaining > 0 && c != [] {
      FoldTouches(taker.Fills(Min(taker.remaining, c[0].remaining)), c[1..], id);
    }
  }

  lemma {:induction false} RemainsUntouched(q: Queue, ms: seq<Match>)
    requires Untouched(q, ms)
    ensures Remains(q, ms) == q
  {
    if q != [] {
      RemainsUntouched(q[1..], ms);
    }
  }

  lemma {:induction false} RemainsAppend(q: Queue, r: Queue, ms: seq<Match>)
    ensures Remains(q + r, ms) == Remains(q, ms) + Remains(r, ms)
    decreases q
  {
    if q == [] {
      assert q + r == r;
    } else {
      RemainsAppend(q[1..], r, ms);
      assert (q + r)[1..] == q[1..] + r && (q + r)[0] == q[0];
      Assoc(Rest(q[0], ms), Remains(q[1..], ms), Remains(r, ms));
    }
  }

  lemma {:induction false} RotationTrans(x: Queue, y: Queue, z: Queue, user: UserId)
    requires IsRotation(x, y, user) && IsRotation(y, z, user)
    ensures IsRotation(x, z, user)
  {
    var i :| 0 <= i <= |y| && x == y[i..] + y[..i] && forall o :: o in y[..i] ==> o.user == user;
    var j :| 0 <= j <= |z| && y == z[j..] + z[..j] && forall o :: o in z[..j] ==> o.user == user;
    var k := if i + j <= |z| then i + j else i + j - |z|;
    RotationAdds(x, y, z, i, j);
    forall n | 0 <= n < k
      ensures z[n].user == user
    {
      if n < j {
        assert z[n] in z[..j];
      } else {
        assert y[n - j] == z[n] && y[n - j] in y[..i];
      }
    }
    assert forall o :: o in z[..k] ==> o.user == user;
  }

  lemma {:induction false} RotationAdds(x: Queue, y: Queue, z: Queue, i: nat, j: nat)
    requires i <= |y| && j <= |z| && x == y[i..] + y[..i] && y == z[j..] + z[..j]
    ensures var k := if i + j <= |z| then i + j else i + j - |z|; x == z[k..] + z[..k]
  {
    var k := if i + j <= |z| then i + j else i + j - |z|;
    var w := z[k..] + z[..k];
    assert |x| == |w|;
    forall n | 0 <= n < |x|
      ensures x[n] == w[n]
    {
      var a := if n < |y| - i then n + i else n + i - |y|;
      assert x[n] == y[a];
      assert y[a] == if a < |z| - j then z[a + j] else z[a + j - |z|];
    }
    assert x == w;
  }

  lemma {:induction false} TurnIsRotation(x: Order, q: Queue)
    ensures IsRotation(q + [x], [x] + q, x.user)
  {
    assert q + [x] == ([x] + q)[1..] + ([x] + q)[..1];
  }

  lemma {:induction false} TradedAppend3(pre: seq<Match>, ms: seq<Match>, post: seq<Match>, id: OrderId)
    ensures Traded(pre + ms + post, id) == Traded(pre, id) + Traded(ms, id) + Traded(post, id)
  {
    TradedAppend(pre, ms, id);
    TradedAppend(pre + ms, post, id);
  }

  lemma {:induction false} NothingTaken(q: Queue, pre: seq<Match>, post: seq<Match>)
    requires Untouched(q, pre) && Untouched(q, post)
    ensures Remains(q, pre + [] + post) == q
  {
    forall o | o in q
      ensures Traded(pre + [] + post, o.id) == 0
    {
      TradedAppend3(pre, [], post, o.id);
    }
    RemainsUntouched(q, pre + [] + post);
  }

  lemma {:induction false} OwnUntouched(taker: Order, q: Queue, x: Order)
    requires Distinct(q) && x in q && x.user == taker.user && x.id != taker.id
    ensures Traded(Fold(taker, Others(taker.user, q)), x.id) == 0
  {
    OthersMembers(taker.user, q);
    FoldTouches(taker, Others(taker.user, q), x.id);
  }

  lemma {:induction false} TurnedRemains(q: Queue, all: seq<Match>, x: Queue)
    requires q != [] && Traded(all, q[0].id) == 0
    requires IsRotation(x, Remains(q[1..] + [q[0]], all), q[0].user)
    ensures IsRotation(x, Remains(q, all), q[0].user)
  {
    RemainsAppend(q[1..], [q[0]], all);
    assert Remains([q[0]], all) == [q[0]];
    TurnIsRotation(q[0], Remains(q[1..], all));
    RotationTrans(x, Remains(q[1..] + [q[0]], all), Remains(q, all), q[0].user);
  }

  lemma {:induction false} FrontLeft(q: Queue, k: Quantity, pre: seq<Match>, post: seq<Match>)
    requires q != [] && 0 < k < q[0].remaining && Untouched(q[1..], pre) && Untouched(q, post)
             && Traded(pre, q[0].id) == k
    ensures Remains(q, pre + post) == [q[0].Fills(k)] + q[1..]
  {
    TradedAppend(pre, post, q[0].id);
    NothingTaken(q[1..], pre, post);
    assert pre + [] + post == pre + post;
  }

  lemma {:induction false} FrontGone(q: Queue, pre: seq<Match>, post: seq<Match>)
    requires q != [] && q[0].remaining > 0 && Traded(pre, q[0].id) == q[0].remaining
    ensures Remains(q, pre + post) == Remains(q[1..], pre + post)
  {
    TradedAppend(pre, post, q[0].id);
  }

  lemma {:induction false} Unturned(q: Queue, user: UserId)
    ensures IsRotation(q, q, user)
  {
    assert q == q[0..] + q[..0];
  }

  /** Where the level loop leaves the queue: the old queue less what its own matches took, turned round.
      `pre` and `post` stand for the matches of other levels. */
  lemma {:induction false} SweepLevelRemains(taker: Order, q: Queue, budget: nat, pre: seq<Match>, post: seq<Match>)
    requires Distinct(q) && (forall o :: o in q ==> o.id != taker.id && o.remaining > 0)
    requires forall i :: budget <= i < |q| ==> q[i].user == taker.user
    requires Untouched(q, pre) && Untouched(q, post)
    ensures var r := SweepLevel(taker, q, budget);
            IsRotation(r.queue, Remains(q, pre + r.matches + post), taker.user)
    decreases taker.remaining, budget + |q|
  {
    if taker.remaining == 0 || q == [] {
      NothingTaken(q, pre, post);
      Unturned(q, taker.user);
    } else if q[0].user == taker.user {
      OwnFrontRemains(taker, q, budget, pre, post);
    } else {
      OtherFrontRemains(taker, q, budget, pre, post);
    }
  }

  lemma {:induction false} OwnFrontRemains(taker: Order, q: Queue, budget: nat, pre: seq<Match>, post: seq<Match>)
    requires Distinct(q) && (forall o :: o in q ==> o.id != taker.id && o.remaining > 0)
    requires forall i :: budget <= i < |q| ==> q[i].user == taker.user
    requires Untouched(q, pre) && Untouched(q, post)
    requires taker.remaining > 0 && q != [] && q[0].user == taker.user
    ensures var r := SweepLevel(taker, q, budget);
            IsRotation(r.queue, Remains(q, pre + r.matches + post), taker.user)
    decreases taker.remaining, budget + |q|, 0
  {
    hide Traded, Remains, IsRotation, Fold;
    var t, r := q[1..] + [q[0]], SweepLevel(taker, q, budget);
    TurnDistinct(q);
    if budget > 1 {
      SweepLevelRemains(taker, t, budget - 1, pre, post);
      SweepLevelIsFold(taker, t, budget - 1);
      OwnUntouched(taker, t, q[0]);
      TradedAppend3(pre, r.matches, post, q[0].id);
      TurnedRemains(q, pre + r.matches + post, r.queue);
    } else {
      NothingTaken(q, pre, post);
      TurnIsRotation(q[0], q[1..]);
      assert [q[0]] + q[1..] == q;
    }
  }

  lemma {:induction false} OtherFrontRemains(taker: Order, q: Queue, budget: nat, pre: seq<Match>, post: seq<Match>)
    requires Distinct(q) && (forall o :: o in q ==> o.id != taker.id && o.remaining > 0)
    requires forall i :: budget <= i < |q| ==> q[i].user == taker.user
    requires Untouched(q, pre) && Untouched(q, post)
    requires taker.remaining > 0 && q != [] && q[0].user != taker.user
    ensures var r := SweepLevel(taker, q, budget);
            IsRotation(r.queue, Remains(q, pre + r.matches + post), taker.user)
    decreases taker.remaining, budget + |q|, 0
  {
    var k := Min(taker.remaining, q[0].remaining);
    var m := MatchOf(taker, q[0], q[0].price, k);
    var r1 := SweepLevel(taker.Fills(k), Cut(q, k), budget);
    FrontTaken(taker, q, m, pre);
    assert pre + ([m] + r1.matches) + post == pre + [m] + (r1.matches + post) == pre + [m] + r1.matches + post;
    if k == q[0].remaining {
      SweepLevelRemains(taker.Fills(k), q[1..], budget, pre + [m], post);
      FrontGone(q, pre + [m], r1.matches + post);
    } else {
      assert r1.matches == [] && r1.matches + post == post;
      FrontLeft(q, k, pre + [m], post);
      Unturned(Cut(q, k), taker.user);
    }
  }

  lemma {:induction false} TurnDistinct(q: Queue)
    requires Distinct(q) && q != []
    ensures Distinct(q[1..] + [q[0]]) && forall o :: o in q[1..] + [q[0]] <==> o in q
  {
    var t := q[1..] + [q[0]];
    assert q == [q[0]] + q[1..];
    forall i, j | 0 <= i < j < |t|
      ensures t[i].id != t[j].id
    {
      assert t[i] == q[i + 1];
    }
  }

  lemma {:induction false} FrontTaken(taker: Order, q: Queue, m: Match, pre: seq<Match>)
    requires Distinct(q) && q != [] && (forall o :: o in q ==> o.id != taker.id) && Untouched(q, pre)
    requires m == MatchOf(taker, q[0], q[0].price, m.quantity)
    ensures Untouched(q[1..], pre + [m])
    ensures Traded(pre + [m], q[0].id) == m.quantity
  {
    forall o | o in q
      ensures Traded(pre + [m], o.id) == if o.id == q[0].id then m.quantity else 0
    {
      TradedAppend(pre, [m], o.id);
      assert Traded([m][1..], o.id) == 0;
    }
    forall o | o in q[1..]
      ensures o in q && o.id != q[0].id
    {
      var i :| 0 <= i < |q[1..]| && q[1..][i] == o;
      assert q[i + 1] == o;
    }
  }

  /** Which orders a sweep can touch at all. */
  lemma {:induction false} SweepTouches(taker: Order, m: LevelMap, id: OrderId)
    requires LevelsOk(taker.side.Opposite(), m)
    requires id != taker.id && forall o :: o in Pool(m) ==> o.id != id
    ensures Traded(Sweep(taker, m).matches, id) == 0
  {
    SweepIsFold(taker, m);
    CandidateMembers(taker, m);
    FoldTouches(taker, Candidates(taker, m), id);
  }

  lemma {:induction false} LevelTouches(taker: Order, q: Queue, id: OrderId)
    requires id != taker.id && forall o :: o in q ==> o.id != id
    ensures Traded(SweepLevel(taker, q, |q|).matches, id) == 0
  {
    SweepLevelIsFold(taker, q, |q|);
    OthersMembers(taker.user, q);
    FoldTouches(taker, Others(taker.user, q), id);
  }

  function At(m: LevelMap, p: Price): Queue {
    if p in m then m[p] else []
  }

  /** After a FAK or FOK sweep every level is the old level less what the matches took from it, filled
      orders gone; only the taker's own orders may have been sent to the back. A level disappears exactly when nothing
      of it remains. */
  lemma {:induction false} SweepRemains(taker: Order, m: LevelMap, pre: seq<Match>, p: Price)
    requires SweepOk(taker, m, {}) && taker.id !in Ids(Pool(m)) && p in m && Untouched(m[p], pre)
    ensures IsRotation(At(Sweep(taker, m).levels, p), Remains(m[p], pre + Sweep(taker, m).matches), taker.user)
    decreases |m|
  {
    hide Remains, SweepLevel;
    var side := taker.side.Opposite();
    if taker.remaining == 0 || !Crosses(taker.side, taker.price, Best(side, m)) {
      NothingTaken(m[p], pre, []);
      assert pre + [] + [] == pre + [];
      Unturned(m[p], taker.user);
    } else {
      var b := Best(side, m);
      var l := SweepLevel(taker, m[b], |m[b]|);
      var r1 := Sweep(l.taker, m - {b});
      SweepNext(taker, m, b);
      assert pre + l.matches + r1.matches == pre + (l.matches + r1.matches);
      if p == b {
        forall o | o in m[b]
          ensures Traded(r1.matches, o.id) == 0
        {
          SweepTouches(l.taker, m - {b}, o.id);
        }
        SweepLevelRemains(taker, m[b], |m[b]|, pre, r1.matches);
        SweepKeys(l.taker, m - {b});
      } else {
        LevelApartUntouched(taker, m, b, p, pre);
        SweepRemains(l.taker, m - {b}, pre + l.matches, p);
      }
    }
  }

  /** The taker and the levels left to it after its first level. */
  lemma {:induction false} SweepNext(taker: Order, m: LevelMap, b: Price)
    requires SweepOk(taker, m, {}) && taker.id !in Ids(Pool(m)) && b in m && Crosses(taker.side, taker.price, b)
    ensures var l := SweepLevel(taker, m[b], |m[b]|);
            && l.taker.id == taker.id && l.taker.side == taker.side && l.taker.user == taker.user
            && SweepOk(l.taker, m - {b}, {}) && l.taker.id !in Ids(Pool(m - {b}))
    ensures forall o :: o in m[b] ==> o.id != taker.id && o.remaining > 0
    ensures forall o, x :: o in m[b] && x in Pool(m - {b}) ==> o.id != x.id
  {
    hide SweepLevel, After, LegalRun, Distinct;
    var l := SweepLevel(taker, m[b], |m[b]|);
    SweepLevelIsFold(taker, m[b], |m[b]|);
    assert l.taker.Fixed().id == taker.Fixed().id && l.taker.Fixed().side == taker.Fixed().side
           && l.taker.Fixed().user == taker.Fixed().user;
    LevelIds(taker.side.Opposite(), m, b);
    PoolShrinks(m, b);
    TakerApart(l.taker, m - {b});
    assert forall o :: o in m[b] ==> o in Pool(m);
  }

  lemma {:induction false} LevelApartUntouched(taker: Order, m: LevelMap, b: Price, p: Price, pre: seq<Match>)
    requires LevelsOk(taker.side.Opposite(), m) && UniqueIds(Pool(m)) && taker.id !in Ids(Pool(m))
    requires b in m && p in m && p != b && Untouched(m[p], pre)
    ensures Untouched(m[p], pre + SweepLevel(taker, m[b], |m[b]|).matches)
  {
    LevelIds(taker.side.Opposite(), m, b);
    forall o | o in m[p]
      ensures Traded(pre + SweepLevel(taker, m[b], |m[b]|).matches, o.id) == 0
    {
      assert p in m - {b} && o in Pool(m - {b}) && o in Pool(m);
      LevelTouches(taker, m[b], o.id);
      TradedAppend(pre, SweepLevel(taker, m[b], |m[b]|).matches, o.id);
    }
  }

  /** No id occurs on two levels. */
  lemma {:induction false} LevelIds(side: Side, m: LevelMap, b: Price)
    requires LevelsOk(side, m) && UniqueIds(Pool(m)) && b in m
    ensures forall o, x :: o in m[b] && x in Pool(m - {b}) ==> o.id != x.id
  {
    forall o, x | o in m[b] && x in Pool(m - {b})
      ensures o.id != x.id
    {
      assert o in Pool(m) && x in Pool(m) && o.price == b && x.price != b;
    }
  }

  /** A FOK order is filled whole exactly when other users' crossing orders hold enough. */
  lemma {:induction false} FillsWhole(taker: Order, m: LevelMap)
    ensures Sweep(taker, m).taker.remaining == 0 <==> Sum(Candidates(taker, m)) >= taker.remaining
  {
    SweepIsFold(taker, m);
    FoldLeaves(taker, Candidates(taker, m));
  }
}
