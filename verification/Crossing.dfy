/** Resting (GTC, GFD) orders against a book that may hold one user's own crossing orders. */
module Crossing {
  import opened Types
  import opened Levels
  import opened Matching
  import opened Soundness
  import opened Greedy

  /** No order of one side crosses an order of the other, except orders of the same user. */
  ghost predicate OnlySelfCrossed(side: Side, same: set<Order>, opp: set<Order>) {
    forall s, o :: s in same && o in opp && Crosses(side, s.price, o.price) ==> s.user == o.user
  }

  ghost predicate AllOf(user: UserId, q: Queue) {
    forall o :: o in q ==> o.user == user
  }

  // ---- Levels of one user never trade ----

  lemma {:induction false} DuelIdle(side: Side, s: Queue, o: Queue, p: Price, n: nat, skips: nat, turns: nat,
                                    user: UserId)
    requires AllOf(user, s) && AllOf(user, o)
    ensures var r := Duel(side, s, o, p, n, skips, turns);
            && r.matches == [] && Elems(r.same) == Elems(s) && Elems(r.opp) == Elems(o)
            && (r.blocked <==> s != [] && o != [])
    decreases |s| + |o|, turns, skips
  {
    if s != [] && o != [] {
      var s', o' := s[1..] + [s[0]], o[1..] + [o[0]];
      TurnElems(s);
      TurnElems(o);
      if skips > 1 {
        DuelIdle(side, s, o', p, n, skips - 1, turns, user);
      } else if turns > 0 {
        DuelIdle(side, s', o', p, n, n, turns - 1, user);
      }
    }
  }

  lemma {:induction false} TurnElems(q: Queue)
    requires q != []
    ensures Elems(q[1..] + [q[0]]) == Elems(q)
    ensures forall o :: o in q[1..] + [q[0]] <==> o in q
  {
    assert q == [q[0]] + q[1..];
  }

  /** If all crossings are between orders of one user, nothing trades and no order is lost. */
  lemma {:induction false} ClearIdle(side: Side, same: LevelMap, opp: LevelMap)
    requires LevelsOk(side, same) && LevelsOk(side.Opposite(), opp)
    requires Crossed(side, same, opp) ==> OnlySelfCrossed(side, Elems(same[Best(side, same)]), Pool(opp))
    ensures var r := Clear(side, same, opp);
            r.matches == [] && Pool(r.same) == Pool(same) && Pool(r.opp) == Pool(opp)
    decreases |opp|
  {
    if Crossed(side, same, opp) {
      var sp, op := Best(side, same), Best(side.Opposite(), opp);
      var s, o, d := same[sp], opp[op], FirstDuel(side, same, opp);
      LevelOfOneUser(side, same, opp);
      DuelIdle(side, s, o, op, |o|, |o|, |s| - 1, s[0].user);
      DuelKeepsQueues(side, s, o, sp, op, |o|, |o|, |s| - 1);
      var same1, opp1 := same[sp := d.same], opp - {op};
      assert Put(same, sp, d.same) == same1 && same1.Keys == same.Keys;
      SameBest(side, same, same1);
      PoolShrinks(opp, op);
      ClearIdle(side, same1, opp1);
      PoolPut(same, sp, d.same);
      PoolSplit(same, sp);
      PoolSplit(opp, op);
      ClearKeys(side, same1, opp1);
      PoolBack(Clear(side, same1, opp1).opp, op, d.opp);
    }
  }

  lemma {:induction false} SameBest(side: Side, m: LevelMap, m': LevelMap)
    requires m != map[] && m'.Keys == m.Keys
    ensures m' != map[] && Best(side, m') == Best(side, m)
  {
    assert Best(side, m) in m'.Keys;
    assert Best(side, m') in m.Keys;
  }

  lemma {:induction false} PoolBack(m: LevelMap, p: Price, q: Queue)
    requires p !in m
    ensures Pool(m[p := q]) == Elems(q) + Pool(m)
  {
    PoolSplit(m[p := q], p);
    assert m[p := q] - {p} == m;
  }

  lemma {:induction false} LevelOfOneUser(side: Side, same: LevelMap, opp: LevelMap)
    requires LevelsOk(side, same) && LevelsOk(side.Opposite(), opp) && Crossed(side, same, opp)
    requires OnlySelfCrossed(side, Elems(same[Best(side, same)]), Pool(opp))
    ensures var s, o := same[Best(side, same)], opp[Best(side.Opposite(), opp)];
            s != [] && o != [] && AllOf(s[0].user, s) && AllOf(s[0].user, o)
  {
    var sp, op := Best(side, same), Best(side.Opposite(), opp);
    var s, o := same[sp], opp[op];
    assert s[0] in s && o[0] in o;
    forall x, y | x in s && y in o
      ensures x.user == y.user
    {
      assert x in Elems(s) && y in Pool(opp) && x.price == sp && y.price == op;
    }
  }

  // ---- The new order on its own level, alone or behind one other user's orders ----

  /** What the duel leaves: the new order meets `o` as a sweeping taker would; the orders `xs` that share
      its level never trade. */
  ghost predicate FoughtAlone(d: DuelOut, a: Order, xs: Queue, o: Queue) {
    var l := SweepLevel(a, o, |o|);
    && d.matches == l.matches
    && (l.taker.remaining > 0 ==> d.same == [l.taker] + xs && d.opp == l.queue && d.blocked == l.blocked)
    && (l.taker.remaining == 0 ==> Elems(d.same) == Elems(xs) && Elems(d.opp) == Elems(l.queue)
                                   && (d.blocked <==> xs != [] && l.queue != []))
  }

  lemma {:induction false} DuelLone(a: Order, o: Queue, p: Price, n: nat, budget: nat)
    requires a.remaining > 0 && forall x :: x in o ==> x.remaining > 0 && x.price == p
    ensures var d, l := Duel(a.side, [a], o, p, n, budget, 0), SweepLevel(a, o, budget);
            && d.matches == l.matches && d.opp == l.queue && d.blocked == l.blocked
            && d.same == if l.taker.remaining == 0 then [] else [l.taker]
    decreases a.remaining, budget + |o|
  {
    if o == [] {
    } else if a.user == o[0].user {
      TurnElems(o);
      if budget > 1 {
        DuelLone(a, o[1..] + [o[0]], p, n, budget - 1);
      }
    } else {
      var k := Min(a.remaining, o[0].remaining);
      if k < a.remaining {
        assert Cut([a], k) == [a.Fills(k)] && Cut(o, k) == o[1..];
        DuelLone(a.Fills(k), o[1..], p, n, budget);
      } else {
        assert Cut([a], k) == [];
      }
    }
  }

  /** Other users' orders behind `a` on its level, and only their orders opposite. */
  lemma {:induction false} DuelFront(side: Side, a: Order, xs: Queue, o: Queue, p: Price, n: nat, skips: nat,
                                     turns: nat, budget: nat, user: UserId)
    requires side == a.side && a.remaining > 0 && a.user != user && AllOf(user, xs) && AllOf(user, o)
    requires forall x :: x in o ==> x.remaining > 0 && x.price == p
    ensures var d, l := Duel(side, [a] + xs, o, p, n, skips, turns), SweepLevel(a, o, budget);
            && d.matches == l.matches && !l.blocked
            && (l.taker.remaining > 0 ==> d.same == [l.taker] + xs && d.opp == [] && l.queue == [])
            && (l.taker.remaining == 0 ==> Elems(d.same) == Elems(xs) && Elems(d.opp) == Elems(l.queue)
                                           && (d.blocked <==> xs != [] && l.queue != []))
    decreases o
  {
    if o != [] {
      var s, k := [a] + xs, Min(a.remaining, o[0].remaining);
      assert o == [o[0]] + o[1..] && s[1..] == xs;
      if k < a.remaining {
        assert Cut(s, k) == [a.Fills(k)] + xs && Cut(o, k) == o[1..];
        DuelFront(side, a.Fills(k), xs, o[1..], p, n, skips, turns, budget, user);
      } else {
        assert Cut(s, k) == xs;
        var o' := Cut(o, k);
        assert AllOf(user, o') by { assert forall x :: x in o' ==> x in o[1..] || x == o[0].Fills(k); }
        DuelIdle(side, xs, o', p, n, skips, turns, user);
      }
    }
  }

  /** The rotation that brings a buried order to the front: one full turn of the opposite level each time. */
  lemma {:induction false} DuelTurn(side: Side, s: Queue, o: Queue, p: Price, n: nat, skips: nat, turns: nat,
                                    user: UserId)
    requires s != [] && s[0].user == user && AllOf(user, o) && 1 <= skips <= |o| && turns > 0
    ensures Duel(side, s, o, p, n, skips, turns)
            == Duel(side, s[1..] + [s[0]], o[skips..] + o[..skips], p, n, n, turns - 1)
    decreases skips
  {
    var o' := o[1..] + [o[0]];
    TurnElems(o);
    if skips > 1 {
      DuelTurn(side, s, o', p, n, skips - 1, turns, user);
      assert o'[skips - 1..] + o'[..skips - 1] == o[skips..] + o[..skips];
    } else {
      assert o' == o[1..] + o[..1];
    }
  }

  lemma {:induction false} DuelTurned(side: Side, a: Order, xs: Queue, ys: Queue, o: Queue, p: Price, turns: nat,
                                      user: UserId)
    requires AllOf(user, xs) && AllOf(user, o) && o != [] && turns >= |xs|
    ensures Duel(side, xs + [a] + ys, o, p, |o|, |o|, turns) == Duel(side, [a] + ys + xs, o, p, |o|, |o|, turns - |xs|)
    decreases xs
  {
    if xs == [] {
      assert xs + [a] + ys == [a] + ys + xs;
    } else {
      var s := xs + [a] + ys;
      DuelTurn(side, s, o, p, |o|, |o|, turns, user);
      assert o[|o|..] + o[..|o|] == o;
      assert s[1..] + [s[0]] == xs[1..] + [a] + (ys + [xs[0]]);
      DuelTurned(side, a, xs[1..], ys + [xs[0]], o, p, turns - 1, user);
      assert [a] + (ys + [xs[0]]) + xs[1..] == [a] + ys + xs;
    }
  }

  /** The two starting positions: the new order alone on its level or behind `xs`, and, after its first
      level, in front of `xs`. */
  ghost predicate Placed(a: Order, xs: Queue, s: Queue) {
    s == [a] + xs || s == xs + [a]
  }

  lemma {:induction false} DuelAlone(a: Order, xs: Queue, s: Queue, o: Queue, p: Price)
    requires Placed(a, xs, s) && a.remaining > 0 && o != []
    requires forall x :: x in o ==> x.remaining > 0 && x.price == p
    requires xs != [] ==> xs[0].user != a.user && AllOf(xs[0].user, xs) && AllOf(xs[0].user, o)
    ensures FoughtAlone(Duel(a.side, s, o, p, |o|, |o|, |s| - 1), a, xs, o)
  {
    if xs == [] {
      assert s == [a] && [a] + xs == [a];
      DuelLone(a, o, p, |o|, |o|);
    } else if s == [a] + xs {
      DuelFront(a.side, a, xs, o, p, |o|, |o|, |s| - 1, |o|, xs[0].user);
    } else {
      assert xs + [a] + [] == s && [a] + [] + xs == [a] + xs;
      DuelTurned(a.side, a, xs, [], o, p, |s| - 1, xs[0].user);
      DuelFront(a.side, a, xs, o, p, |o|, |o|, 0, |o|, xs[0].user);
    }
  }

  /** Company that can only meet its own user's orders at this price is of one user, and so is the level opposite. */
  lemma {:induction false} CompanyOfOneUser(side: Side, xs: Queue, o: Queue, sp: Price, op: Price)
    requires xs != [] && o != [] && Crosses(side, sp, op)
    requires (forall x :: x in xs ==> x.price == sp) && (forall y :: y in o ==> y.price == op)
    requires OnlySelfCrossed(side, Elems(xs), Elems(o))
    ensures AllOf(xs[0].user, xs) && AllOf(xs[0].user, o)
  {
    assert xs[0] in Elems(xs) && o[0] in Elems(o);
    assert forall x :: x in xs ==> x in Elems(xs) && x.user == o[0].user;
    assert forall y :: y in o ==> y in Elems(o) && y.user == xs[0].user;
  }

  /** A new order `a` on the best level `same`, whose company there is `xs`; nobody else can trade. */
  ghost predicate Newcomer(side: Side, same: LevelMap, opp: LevelMap, a: Order, xs: Queue) {
    && LevelsOk(side, same) && LevelsOk(side.Opposite(), opp) && same != map[]
    && Placed(a, xs, same[Best(side, same)])
    && OnlySelfCrossed(side, Elems(xs) + Pool(same - {Best(side, same)}), Pool(opp))
    && (xs != [] ==> xs[0].user != a.user)
  }

  lemma {:induction false} FirstDuelAlone(side: Side, same: LevelMap, opp: LevelMap, a: Order, xs: Queue)
    requires Newcomer(side, same, opp, a, xs) && Crossed(side, same, opp)
    ensures FoughtAlone(FirstDuel(side, same, opp), a, xs, opp[Best(side.Opposite(), opp)])
    ensures a.side == side && a.price == Best(side, same) && a.remaining > 0
  {
    hide Duel, SweepLevel;
    var sp, op := Best(side, same), Best(side.Opposite(), opp);
    var s, o := same[sp], opp[op];
    InCompany(side, sp, a, xs, s);
    if xs != [] {
      assert Elems(o) <= Pool(opp);
      CompanyOfOneUser(side, xs, o, sp, op);
    }
    DuelAlone(a, xs, s, o, op);
  }

  lemma {:induction false} InCompany(side: Side, sp: Price, a: Order, xs: Queue, s: Queue)
    requires Placed(a, xs, s) && QueueOk(side, sp, s)
    ensures a.side == side && a.price == sp && a.remaining > 0
    ensures forall x :: x in xs ==> x.price == sp
    ensures Elems(s) == {a} + Elems(xs)
  {
    assert a in s && forall x :: x in xs ==> x in s;
    assert forall x :: x in s ==> x == a || x in xs;
  }

  /** What the loop then makes of the book. */
  ghost predicate LikeSweep(side: Side, same: LevelMap, opp: LevelMap, a: Order, xs: Queue)
    requires same != map[]
  {
    var r, w := Clear(side, same, opp), Sweep(a, opp);
    && r.matches == w.matches && Pool(r.opp) == Pool(w.levels)
    && Pool(r.same) == Kept(w.taker) + Elems(xs) + Pool(same - {Best(side, same)})
  }

  /** The whole loop, as seen by a new order on the best level whose company there cannot trade: it meets
      the opposite side exactly as a sweeping taker, and every other order is left as it was. */
  lemma {:induction false} ClearIsSweep(side: Side, same: LevelMap, opp: LevelMap, a: Order, xs: Queue)
    requires Newcomer(side, same, opp, a, xs)
    ensures LikeSweep(side, same, opp, a, xs)
    decreases |opp|
  {
    var sp := Best(side, same);
    InCompany(side, sp, a, xs, same[sp]);
    if Crossed(side, same, opp) {
      var op, d := Best(side.Opposite(), opp), FirstDuel(side, same, opp);
      var l := SweepLevel(a, opp[op], |opp[op]|);
      FirstDuelAlone(side, same, opp, a, xs);
      if l.taker.remaining > 0 {
        FightsOn(side, same, opp, a, xs);
        ClearIsSweep(side, same[sp := d.same], opp - {op}, l.taker, xs);
        FoughtOn(side, same, opp, a, xs);
      } else {
        RestIdle(side, same, opp, a, xs);
        FoughtOut(side, same, opp, a, xs);
      }
    } else {
      PoolSplit(same, sp);
    }
  }

  lemma {:induction false} WriteSame(side: Side, m: LevelMap, p: Price, q: Queue)
    requires LevelsOk(side, m) && m != map[] && p == Best(side, m) && q != [] && QueueOk(side, p, q)
    ensures LevelsOk(side, m[p := q]) && Best(side, m[p := q]) == p && m[p := q] - {p} == m - {p}
  {
    assert m[p := q].Keys == m.Keys;
    SameBest(side, m, m[p := q]);
  }

  lemma {:induction false} FirstDuelOk(side: Side, same: LevelMap, opp: LevelMap)
    requires LevelsOk(side, same) && LevelsOk(side.Opposite(), opp) && Crossed(side, same, opp)
    ensures DuelOk(side, FirstDuel(side, same, opp).same, FirstDuel(side, same, opp).opp, Best(side, same),
                Best(side.Opposite(), opp))
  {
    hide Duel;
    var sp, op := Best(side, same), Best(side.Opposite(), opp);
    DuelKeepsQueues(side, same[sp], opp[op], sp, op, |opp[op]|, |opp[op]|, |same[sp]| - 1);
  }

  /** With the opposite level emptied or set aside the new order stands before the next one just the same. */
  lemma {:induction false} FightsOn(side: Side, same: LevelMap, opp: LevelMap, a: Order, xs: Queue)
    requires Newcomer(side, same, opp, a, xs) && Crossed(side, same, opp)
    requires FoughtAlone(FirstDuel(side, same, opp), a, xs, opp[Best(side.Opposite(), opp)])
    requires SweepLevel(a, opp[Best(side.Opposite(), opp)], |opp[Best(side.Opposite(), opp)]|).taker.remaining > 0
    ensures var sp, op, d := Best(side, same), Best(side.Opposite(), opp), FirstDuel(side, same, opp);
            var l := SweepLevel(a, opp[op], |opp[op]|);
            && NextSame(side, same, opp) == same[sp := d.same] && NextOpp(side, same, opp) == opp - {op}
            && Newcomer(side, same[sp := d.same], opp - {op}, l.taker, xs)
            && Best(side, same[sp := d.same]) == sp && same[sp := d.same] - {sp} == same - {sp}
  {
    hide Duel, SweepLevel, Fold, FoldTaker, Others, FirstDuel, Pool, LevelsOk, QueueOk, OnlySelfCrossed;
    var sp, op, d := Best(side, same), Best(side.Opposite(), opp), FirstDuel(side, same, opp);
    FightsOnNewcomer(side, same, opp, a, xs);
    FirstDuelOk(side, same, opp);
    WriteSame(side, same, sp, d.same);
  }

  lemma {:induction false} FightsOnNewcomer(side: Side, same: LevelMap, opp: LevelMap, a: Order, xs: Queue)
    requires Newcomer(side, same, opp, a, xs) && Crossed(side, same, opp)
    requires FoughtAlone(FirstDuel(side, same, opp), a, xs, opp[Best(side.Opposite(), opp)])
    requires SweepLevel(a, opp[Best(side.Opposite(), opp)], |opp[Best(side.Opposite(), opp)]|).taker.remaining > 0
    ensures var sp, op, d := Best(side, same), Best(side.Opposite(), opp), FirstDuel(side, same, opp);
            var l := SweepLevel(a, opp[op], |opp[op]|);
            Newcomer(side, same[sp := d.same], opp - {op}, l.taker, xs)
  {
    hide Duel, SweepLevel, Fold, FoldTaker, Others, FirstDuel, UniqueIds, Distinct, Ids;
    var sp, op, d := Best(side, same), Best(side.Opposite(), opp), FirstDuel(side, same, opp);
    var l := SweepLevel(a, opp[op], |opp[op]|);
    FirstDuelOk(side, same, opp);
    WriteSame(side, same, sp, d.same);
    PoolShrinks(opp, op);
    SweepLevelIsFold(a, opp[op], |opp[op]|);
    assert l.taker.user == a.user by {
      assert l.taker.Fixed().user == a.Fixed().user;
    }
  }

  lemma {:induction false} FoughtOn(side: Side, same: LevelMap, opp: LevelMap, a: Order, xs: Queue)
    requires Crossed(side, same, opp) && a.side == side && a.price == Best(side, same) && a.remaining > 0
    requires FoughtAlone(FirstDuel(side, same, opp), a, xs, opp[Best(side.Opposite(), opp)])
    requires SweepLevel(a, opp[Best(side.Opposite(), opp)], |opp[Best(side.Opposite(), opp)]|).taker.remaining > 0
    requires var sp, op, d := Best(side, same), Best(side.Opposite(), opp), FirstDuel(side, same, opp);
             var l := SweepLevel(a, opp[op], |opp[op]|);
             && NextSame(side, same, opp) == same[sp := d.same] && NextOpp(side, same, opp) == opp - {op}
             && Best(side, same[sp := d.same]) == sp && same[sp := d.same] - {sp} == same - {sp}
             && LikeSweep(side, same[sp := d.same], opp - {op}, l.taker, xs)
    ensures LikeSweep(side, same, opp, a, xs)
  {
    var sp, op, d := Best(side, same), Best(side.Opposite(), opp), FirstDuel(side, same, opp);
    var l := SweepLevel(a, opp[op], |opp[op]|);
    ClearKeys(side, same[sp := d.same], opp - {op});
    SweepKeys(l.taker, opp - {op});
    PoolBack(Clear(side, same[sp := d.same], opp - {op}).opp, op, l.queue);
    PoolBack(Sweep(l.taker, opp - {op}).levels, op, l.queue);
  }

  /** Once the new order is done the rest of the loop changes nothing. */
  lemma {:induction false} RestIdle(side: Side, same: LevelMap, opp: LevelMap, a: Order, xs: Queue)
    requires Newcomer(side, same, opp, a, xs) && Crossed(side, same, opp)
    requires FoughtAlone(FirstDuel(side, same, opp), a, xs, opp[Best(side.Opposite(), opp)])
    requires SweepLevel(a, opp[Best(side.Opposite(), opp)], |opp[Best(side.Opposite(), opp)]|).taker.remaining == 0
    ensures var same1, opp1 := NextSame(side, same, opp), NextOpp(side, same, opp);
            var r := Clear(side, same1, opp1);
            && r.matches == [] && Pool(r.opp) == Pool(opp1)
            && Pool(r.same) == Elems(xs) + Pool(same - {Best(side, same)})
  {
    hide Duel, SweepLevel, Clear;
    var sp, op, d := Best(side, same), Best(side.Opposite(), opp), FirstDuel(side, same, opp);
    FirstDuelOk(side, same, opp);
    PoolPut(same, sp, d.same);
    OppStillOnlySelf(side, same, opp, a, xs);
    IdleFromPools(side, NextSame(side, same, opp), NextOpp(side, same, opp));
  }

  lemma {:induction false} IdleFromPools(side: Side, same: LevelMap, opp: LevelMap)
    requires LevelsOk(side, same) && LevelsOk(side.Opposite(), opp) && OnlySelfCrossed(side, Pool(same), Pool(opp))
    ensures var r := Clear(side, same, opp);
            r.matches == [] && Pool(r.same) == Pool(same) && Pool(r.opp) == Pool(opp)
  {
    if Crossed(side, same, opp) {
      assert Elems(same[Best(side, same)]) <= Pool(same);
    }
    ClearIdle(side, same, opp);
  }

  lemma {:induction false} OppStillOnlySelf(side: Side, same: LevelMap, opp: LevelMap, a: Order, xs: Queue)
    requires Newcomer(side, same, opp, a, xs) && Crossed(side, same, opp)
    requires Elems(FirstDuel(side, same, opp).opp)
          == Elems(SweepLevel(a, opp[Best(side.Opposite(), opp)], |opp[Best(side.Opposite(), opp)]|).queue)
    ensures OnlySelfCrossed(side, Elems(xs) + Pool(same - {Best(side, same)}), Pool(NextOpp(side, same, opp)))
  {
    var op, d := Best(side.Opposite(), opp), FirstDuel(side, same, opp);
    var l := SweepLevel(a, opp[op], |opp[op]|);
    PoolPut(opp, op, d.opp);
    PoolShrinks(opp, op);
    LevelTraces(a, opp[op], |opp[op]|);
    StillOnlySelf(side, Elems(xs) + Pool(same - {Best(side, same)}), Pool(opp), opp[op], l.queue);
    assert Pool(NextOpp(side, same, opp)) <= Pool(opp) + Elems(l.queue);
  }

  /** A sweep that is done on its first level. */
  lemma {:induction false} SweepEnds(a: Order, m: LevelMap)
    requires m != map[] && a.remaining > 0 && Crosses(a.side, a.price, Best(a.side.Opposite(), m))
    requires SweepLevel(a, m[Best(a.side.Opposite(), m)], |m[Best(a.side.Opposite(), m)]|).taker.remaining == 0
    ensures var p := Best(a.side.Opposite(), m);
            var l, w := SweepLevel(a, m[p], |m[p]|), Sweep(a, m);
            w.matches == l.matches && w.taker == l.taker && Pool(w.levels) == Elems(l.queue) + Pool(m - {p})
  {
    var p := Best(a.side.Opposite(), m);
    var l := SweepLevel(a, m[p], |m[p]|);
    assert Sweep(l.taker, m - {p}) == SweepOut(l.taker, m - {p}, []);
    PoolBack(m - {p}, p, l.queue);
    assert l.queue == [] ==> Elems(l.queue) == {};
  }

  lemma {:induction false} FoughtOut(side: Side, same: LevelMap, opp: LevelMap, a: Order, xs: Queue)
    requires Crossed(side, same, opp) && a.side == side && a.price == Best(side, same) && a.remaining > 0
    requires FoughtAlone(FirstDuel(side, same, opp), a, xs, opp[Best(side.Opposite(), opp)])
    requires SweepLevel(a, opp[Best(side.Opposite(), opp)], |opp[Best(side.Opposite(), opp)]|).taker.remaining == 0
    requires var r := Clear(side, NextSame(side, same, opp), NextOpp(side, same, opp));
             && r.matches == [] && Pool(r.opp) == Pool(NextOpp(side, same, opp))
             && Pool(r.same) == Elems(xs) + Pool(same - {Best(side, same)})
    ensures LikeSweep(side, same, opp, a, xs)
  {
    hide Duel, SweepLevel;
    var op, d := Best(side.Opposite(), opp), FirstDuel(side, same, opp);
    var same1, opp1 := NextSame(side, same, opp), NextOpp(side, same, opp);
    SweepEnds(a, opp);
    if d.blocked {
      ClearKeys(side, same1, opp1);
      PoolBack(Clear(side, same1, opp1).opp, op, d.opp);
    } else {
      PoolPut(opp, op, d.opp);
    }
  }

  lemma {:induction false} StillOnlySelf(side: Side, same: set<Order>, opp: set<Order>, q: Queue, q': Queue)
    requires OnlySelfCrossed(side, same, opp) && Elems(q) <= opp
    requires forall x :: x in q' ==> exists y :: y in q && y.Fixed() == x.Fixed()
    ensures OnlySelfCrossed(side, same, opp + Elems(q'))
  {
    forall s, x | s in same && x in q' && Crosses(side, s.price, x.price)
      ensures s.user == x.user
    {
      var y :| y in q && y.Fixed() == x.Fixed();
      assert y.Fixed().price == y.price && y.Fixed().user == y.user && x.Fixed().price == x.price
             && x.Fixed().user == x.user;
      assert y in Elems(q);
    }
  }

  /** Every order the level loop leaves was there before, but for its remainder. */
  lemma {:induction false} LevelTraces(taker: Order, q: Queue, budget: nat)
    ensures Traces(q, SweepLevel(taker, q, budget).queue)
    decreases taker.remaining, budget + |q|
  {
    hide Traces, Cut;
    if taker.remaining == 0 || q == [] {
      TracesSelf(q, q);
    } else if q[0].user == taker.user {
      TurnElems(q);
      TracesSelf(q, q[1..] + [q[0]]);
      if budget > 1 {
        LevelTraces(taker, q[1..] + [q[0]], budget - 1);
        TracesOn(q, q[1..] + [q[0]], SweepLevel(taker, q[1..] + [q[0]], budget - 1).queue);
      }
    } else {
      var k := Min(taker.remaining, q[0].remaining);
      CutIs(q, k);
      TracesCut(q, k);
      LevelTraces(taker.Fills(k), Cut(q, k), budget);
      TracesOn(q, Cut(q, k), SweepLevel(taker.Fills(k), Cut(q, k), budget).queue);
    }
  }

  /** Every order of `r` is one of `q`, up to what fills change. */
  ghost predicate Traces(q: Queue, r: Queue) {
    forall x :: x in r ==> exists y :: y in q && y.Fixed() == x.Fixed()
  }

  lemma {:induction false} TracesSelf(q: Queue, r: Queue)
    requires forall x :: x in r ==> x in q
    ensures Traces(q, r)
  {
  }

  lemma {:induction false} TracesOn(q: Queue, r: Queue, t: Queue)
    requires Traces(q, r) && Traces(r, t)
    ensures Traces(q, t)
  {
    forall x | x in t
      ensures exists z :: z in q && z.Fixed() == x.Fixed()
    {
      var y :| y in r && y.Fixed() == x.Fixed();
      var z :| z in q && z.Fixed() == y.Fixed();
    }
  }

  lemma {:induction false} CutIs(q: Queue, k: Quantity)
    requires q != [] && k <= q[0].remaining
    ensures Cut(q, k) == if q[0].Fills(k).remaining == 0 then q[1..] else [q[0].Fills(k)] + q[1..]
  {
  }

  lemma {:induction false} TracesCut(q: Queue, k: Quantity)
    requires q != [] && k <= q[0].remaining
    ensures Traces(q, Cut(q, k))
  {
    forall x | x in Cut(q, k)
      ensures exists y :: y in q && y.Fixed() == x.Fixed()
    {
      if x == q[0].Fills(k) {
        assert q[0] in q && q[0].Fixed() == x.Fixed();
      } else {
        assert x in q;
      }
    }
  }

  // ---- When the new order meets everybody it should ----

  /** The side after the order joins its level at the back. */
  function Enter(a: Order, same: LevelMap): (r: LevelMap)
    ensures r != map[]
  {
    assert a.price in same[a.price := At(same, a.price) + [a]];
    same[a.price := At(same, a.price) + [a]]
  }

  /** The guard of the failing family: a strictly better price on the order's own side, and at the best
      opposite price, which the order crosses, another user. */
  predicate Blocked(a: Order, same: LevelMap, opp: LevelMap) {
    && same != map[] && opp != map[]
    && Rank(a.side, Best(a.side, same)) < Rank(a.side, a.price)
    && Crosses(a.side, a.price, Best(a.side.Opposite(), opp))
    && opp[Best(a.side.Opposite(), opp)] != [] && opp[Best(a.side.Opposite(), opp)][0].user != a.user
  }

  /** Every opposite order the new one crosses is its owner's. */
  ghost predicate Harmless(a: Order, opp: LevelMap) {
    forall o :: o in Pool(opp) && Crosses(a.side, a.price, o.price) ==> o.user == a.user
  }

  /** The sides before a resting order is added: only self-crossed, and the order is new to them. */
  ghost predicate Entering(a: Order, same: LevelMap, opp: LevelMap) {
    && LevelsOk(a.side, same) && LevelsOk(a.side.Opposite(), opp) && LevelsOk(a.side, Enter(a, same))
    && OnlySelfCrossed(a.side, Pool(same), Pool(opp))
  }

  lemma {:induction false} EnterPool(a: Order, same: LevelMap)
    ensures Pool(Enter(a, same)) == Pool(same) + {a}
    ensures Enter(a, same)[a.price] == At(same, a.price) + [a]
    ensures Elems(At(same, a.price)) + Pool(Enter(a, same) - {a.price}) == Pool(same)
  {
    var q := At(same, a.price);
    PoolPut(same, a.price, q + [a]);
    assert Elems(q + [a]) == Elems(q) + {a};
    assert Enter(a, same) - {a.price} == same - {a.price};
    if a.price in same {
      PoolSplit(same, a.price);
    } else {
      assert same - {a.price} == same && Elems(q) == {};
    }
  }

  /** Where nothing trades, that was right exactly when the new order crosses its owner's orders only. */
  lemma {:induction false} IdleNewOrder(a: Order, same: LevelMap, opp: LevelMap, r: ClearOut)
    requires Entering(a, same, opp)
    requires r.matches == [] && Pool(r.same) == Pool(Enter(a, same)) && Pool(r.opp) == Pool(opp)
    ensures r.matches == Fold(a, Candidates(a, opp)) <==> Harmless(a, opp)
    ensures OnlySelfCrossed(a.side, Pool(r.same), Pool(r.opp)) <==> Harmless(a, opp)
  {
    EnterPool(a, same);
    assert a in Enter(a, same)[a.price] && a.remaining > 0;
    CandidateMembers(a, opp);
    var c := Candidates(a, opp);
    if c != [] {
      assert c[0] in c;
    }
    assert a in Pool(r.same);
  }

  lemma {:induction false} SweepTraces(taker: Order, m: LevelMap)
    ensures forall x :: x in Pool(Sweep(taker, m).levels) ==> exists y :: y in Pool(m) && y.Fixed() == x.Fixed()
    decreases |m|
  {
    if taker.remaining > 0 && m != map[] && Crosses(taker.side, taker.price, Best(taker.side.Opposite(), m)) {
      var p := Best(taker.side.Opposite(), m);
      var l := SweepLevel(taker, m[p], |m[p]|);
      LevelTraces(taker, m[p], |m[p]|);
      SweepTraces(l.taker, m - {p});
      SweepKeys(l.taker, m - {p});
      PoolBack(Sweep(l.taker, m - {p}).levels, p, l.queue);
      PoolSplit(m, p);
    }
  }

  /** A taker that is not done has left no other user's order it crosses. */
  lemma {:induction false} SweepExhausts(taker: Order, m: LevelMap)
    requires LevelsOk(taker.side.Opposite(), m)
    requires Sweep(taker, m).taker.remaining > 0
    ensures forall o :: o in Pool(Sweep(taker, m).levels) && Crosses(taker.side, taker.price, o.price) ==>
              o.user == taker.user
    decreases |m|
  {
    if taker.remaining > 0 && m != map[] && Crosses(taker.side, taker.price, Best(taker.side.Opposite(), m)) {
      var p := Best(taker.side.Opposite(), m);
      var l := SweepLevel(taker, m[p], |m[p]|);
      SweepLevelIsFold(taker, m[p], |m[p]|);
      assert l.taker.Fixed().side == taker.side && l.taker.Fixed().price == taker.price
             && l.taker.Fixed().user == taker.user by {
        assert l.taker.Fixed() == taker.Fixed();
      }
      FoldLeaves(l.taker, Candidates(l.taker, m - {p}));
      SweepIsFold(l.taker, m - {p});
      SweepExhausts(l.taker, m - {p});
      SweepKeys(l.taker, m - {p});
      PoolBack(Sweep(l.taker, m - {p}).levels, p, l.queue);
    }
  }

  /** What a sweeping taker leaves opposite: old orders, and none of other users that it still crosses. */
  lemma {:induction false} SweepLeaves(a: Order, m: LevelMap)
    requires LevelsOk(a.side.Opposite(), m)
    ensures var w := Sweep(a, m);
            && (forall x :: x in Pool(w.levels) ==> exists y :: y in Pool(m) && y.Fixed() == x.Fixed())
            && OnlySelfCrossed(a.side, Kept(w.taker), Pool(w.levels))
  {
    var w := Sweep(a, m);
    SweepTraces(a, m);
    SweepIsFold(a, m);
    if w.taker.remaining > 0 {
      SweepExhausts(a, m);
      assert w.taker.Fixed().user == a.Fixed().user && w.taker.Fixed().price == a.Fixed().price;
    }
  }

  /** Where the order fights like a sweeping taker, nothing other users offered it is left crossing. */
  lemma {:induction false} FightingNewOrder(a: Order, same: LevelMap, opp: LevelMap)
    requires Entering(a, same, opp)
    requires Best(a.side, Enter(a, same)) == a.price
    requires At(same, a.price) != [] ==> At(same, a.price)[0].user != a.user
    ensures var r := Clear(a.side, Enter(a, same), opp);
            && r.matches == Fold(a, Candidates(a, opp))
            && OnlySelfCrossed(a.side, Pool(r.same), Pool(r.opp))
  {
    hide Clear, Sweep, Fold, FoldTaker, Candidates;
    var w := Sweep(a, opp);
    EnterPool(a, same);
    ClearIsSweep(a.side, Enter(a, same), opp, a, At(same, a.price));
    SweepIsFold(a, opp);
    SweepLeaves(a, opp);
    assert Kept(w.taker) + Elems(At(same, a.price)) + Pool(Enter(a, same) - {a.price}) == Kept(w.taker) + Pool(same);
    LeftOnlySelf(a.side, Pool(same), Kept(w.taker), Pool(opp), Pool(w.levels));
  }

  lemma {:induction false} LeftOnlySelf(side: Side, same: set<Order>, added: set<Order>, opp: set<Order>,
                                        opp': set<Order>)
    requires OnlySelfCrossed(side, same, opp) && OnlySelfCrossed(side, added, opp')
    requires forall x :: x in opp' ==> exists y :: y in opp && y.Fixed() == x.Fixed()
    ensures OnlySelfCrossed(side, added + same, opp')
  {
    forall x, y | x in same && y in opp' && Crosses(side, x.price, y.price)
      ensures x.user == y.user
    {
      var was :| was in opp && was.Fixed() == y.Fixed();
      assert was.Fixed().price == was.price && y.Fixed().price == y.price && was.Fixed().user == was.user
             && y.Fixed().user == y.user;
    }
  }

  /** In a book whose only crossings are one user's own, a new resting order yields the reference fold's
      matches exactly when it is not blocked, and keeps the book free of other crossings exactly then. */
  lemma {:induction false} NewOrderIsFold(a: Order, same: LevelMap, opp: LevelMap)
    requires Entering(a, same, opp)
    ensures var r := Clear(a.side, Enter(a, same), opp);
            && (r.matches == Fold(a, Candidates(a, opp)) <==> !Blocked(a, same, opp))
            && (OnlySelfCrossed(a.side, Pool(r.same), Pool(r.opp)) <==> !Blocked(a, same, opp))
            && (Blocked(a, same, opp) ==> r.matches == [])
  {
    var side, s, xs := a.side, Enter(a, same), At(same, a.price);
    EnterPool(a, same);
    var b := Best(side, s);
    assert a.price in s;
    assert forall p :: p in same ==> p in s;
    if b == a.price && !(xs != [] && xs[0].user == a.user) {
      FightingNewOrder(a, same, opp);
      assert same != map[] ==> Best(side, same) in s;
    } else {
      if Crossed(side, s, opp) {
        if b == a.price {
          OwnLevelIdle(a, same, opp);
        } else {
          BetterLevelIdle(a, same, opp);
        }
        ClearIdle(side, s, opp);
      } else {
        NotCrossedHarmless(a, same, opp);
      }
      IdleNewOrder(a, same, opp, Clear(side, s, opp));
    }
  }

  lemma {:induction false} NotCrossedHarmless(a: Order, same: LevelMap, opp: LevelMap)
    requires Entering(a, same, opp) && !Crossed(a.side, Enter(a, same), opp)
    ensures Harmless(a, opp) && !Blocked(a, same, opp)
  {
    var s := Enter(a, same);
    assert a.price in s;
    if opp != map[] {
      assert !Crosses(a.side, a.price, Best(a.side.Opposite(), opp));
      assert forall o :: o in Pool(opp) ==> o.price in opp;
    }
  }

  lemma {:induction false} OwnLevelIdle(a: Order, same: LevelMap, opp: LevelMap)
    requires Entering(a, same, opp) && Best(a.side, Enter(a, same)) == a.price && Crossed(a.side, Enter(a, same), opp)
    requires a.price in same && same[a.price][0].user == a.user
    ensures OnlySelfCrossed(a.side, Elems(Enter(a, same)[a.price]), Pool(opp))
    ensures Harmless(a, opp) && !Blocked(a, same, opp)
  {
    var x := same[a.price][0];
    assert x in same[a.price] && x in Pool(same) && x.price == a.price;
    assert forall y :: y in same[a.price] ==> y in Pool(same);
    assert Best(a.side, same) in Enter(a, same);
  }

  lemma {:induction false} BetterLevel(a: Order, same: LevelMap)
    requires LevelsOk(a.side, same) && Best(a.side, Enter(a, same)) != a.price
    ensures var b := Best(a.side, Enter(a, same));
            && b in same && Enter(a, same)[b] == same[b] && Best(a.side, same) == b
            && Rank(a.side, b) < Rank(a.side, a.price)
            && Elems(same[b]) <= Pool(same)
  {
    var s := Enter(a, same);
    assert a.price in s && forall p :: p in same ==> p in s;
  }

  lemma {:induction false} BetterLevelIdle(a: Order, same: LevelMap, opp: LevelMap)
    requires Entering(a, same, opp) && Best(a.side, Enter(a, same)) != a.price && Crossed(a.side, Enter(a, same), opp)
    ensures var s := Enter(a, same); OnlySelfCrossed(a.side, Elems(s[Best(a.side, s)]), Pool(opp))
    ensures Harmless(a, opp) <==> !Blocked(a, same, opp)
  {
    var s := Enter(a, same);
    var b, op := Best(a.side, s), Best(a.side.Opposite(), opp);
    BetterLevel(a, same);
    LevelOfOneUser(a.side, s, opp);
    var first, front := s[b][0], opp[op][0];
    assert first in Elems(s[b]) && first.price == b;
    assert front in opp[op] && front in Pool(opp) && front.price == op;
    forall o | o in Pool(opp) && Crosses(a.side, a.price, o.price)
      ensures o.user == first.user && Crosses(a.side, a.price, op)
    {
      assert o.price in opp && Crosses(a.side, b, o.price);
    }
  }

  // ---- From an uncrossed book: queue for queue ----

  ghost predicate LoneOrder(side: Side, same: LevelMap, opp: LevelMap, a: Order) {
    && LevelsOk(side, same) && LevelsOk(side.Opposite(), opp) && same != map[]
    && same[Best(side, same)] == [a]
    && forall s, o :: s in same - {Best(side, same)} && o in opp ==> !Crosses(side, s, o)
  }

  ghost predicate LikeSweepExactly(side: Side, same: LevelMap, opp: LevelMap, a: Order)
    requires same != map[]
  {
    var r, w := Clear(side, same, opp), Sweep(a, opp);
    && r.matches == w.matches && r.opp == w.levels
    && r.same == Put(same, Best(side, same), if w.taker.remaining == 0 then [] else [w.taker])
  }

  lemma {:induction false} LoneDuel(side: Side, same: LevelMap, opp: LevelMap, a: Order)
    requires LoneOrder(side, same, opp, a) && Crossed(side, same, opp)
    ensures var op, d := Best(side.Opposite(), opp), FirstDuel(side, same, opp);
            var l := SweepLevel(a, opp[op], |opp[op]|);
            && a.side == side && a.price == Best(side, same) && a.remaining > 0
            && d == DuelOut(if l.taker.remaining == 0 then [] else [l.taker], l.queue, l.matches, l.blocked)
  {
    hide Duel, SweepLevel;
    var op := Best(side.Opposite(), opp);
    InCompany(side, Best(side, same), a, [], same[Best(side, same)]);
    DuelLone(a, opp[op], op, |opp[op]|, |opp[op]|);
  }

  /** When nothing else crosses, the new order's own loop leaves the opposite levels exactly as a sweep would. */
  lemma {:induction false} LoneClear(side: Side, same: LevelMap, opp: LevelMap, a: Order)
    requires LoneOrder(side, same, opp, a)
    ensures LikeSweepExactly(side, same, opp, a)
    decreases |opp|
  {
    hide Duel, SweepLevel, Clear, Sweep, FirstDuel;
    var sp := Best(side, same);
    if Crossed(side, same, opp) {
      var op, d := Best(side.Opposite(), opp), FirstDuel(side, same, opp);
      var l := SweepLevel(a, opp[op], |opp[op]|);
      LoneDuel(side, same, opp, a);
      if l.taker.remaining > 0 {
        FirstDuelOk(side, same, opp);
        WriteSame(side, same, sp, d.same);
        LoneClear(side, same[sp := d.same], opp - {op}, l.taker);
        LoneGoesOn(side, same, opp, a);
      } else {
        LoneEnds(side, same, opp, a);
      }
    } else {
      LoneIdle(side, same, opp, a);
    }
  }

  lemma {:induction false} LoneIdle(side: Side, same: LevelMap, opp: LevelMap, a: Order)
    requires LoneOrder(side, same, opp, a) && !Crossed(side, same, opp)
    ensures LikeSweepExactly(side, same, opp, a)
  {
    InCompany(side, Best(side, same), a, [], same[Best(side, same)]);
    assert same[Best(side, same) := [a]] == same;
  }

  lemma {:induction false} LoneGoesOn(side: Side, same: LevelMap, opp: LevelMap, a: Order)
    requires Crossed(side, same, opp) && a.side == side && a.price == Best(side, same) && a.remaining > 0
    requires var op, d := Best(side.Opposite(), opp), FirstDuel(side, same, opp);
             var l := SweepLevel(a, opp[op], |opp[op]|);
             && l.taker.remaining > 0 && d == DuelOut([l.taker], l.queue, l.matches, l.blocked)
             && Best(side, same[Best(side, same) := d.same]) == Best(side, same)
             && LikeSweepExactly(side, same[Best(side, same) := d.same], opp - {op}, l.taker)
    ensures LikeSweepExactly(side, same, opp, a)
  {
    hide Duel, SweepLevel, FirstDuel;
    var sp, op, d := Best(side, same), Best(side.Opposite(), opp), FirstDuel(side, same, opp);
    var l := SweepLevel(a, opp[op], |opp[op]|);
    assert NextSame(side, same, opp) == same[sp := d.same] && NextOpp(side, same, opp) == opp - {op};
    assert forall q :: Put(same[sp := d.same], sp, q) == Put(same, sp, q);
  }

  lemma {:induction false} LoneEnds(side: Side, same: LevelMap, opp: LevelMap, a: Order)
    requires LoneOrder(side, same, opp, a) && Crossed(side, same, opp)
    requires a.side == side && a.price == Best(side, same) && a.remaining > 0
    requires var op, d := Best(side.Opposite(), opp), FirstDuel(side, same, opp);
             var l := SweepLevel(a, opp[op], |opp[op]|);
             l.taker.remaining == 0 && d == DuelOut([], l.queue, l.matches, l.blocked)
    ensures LikeSweepExactly(side, same, opp, a)
  {
    hide Duel, SweepLevel, FirstDuel;
    var sp, op := Best(side, same), Best(side.Opposite(), opp);
    var l := SweepLevel(a, opp[op], |opp[op]|);
    assert (opp - {op})[op := l.queue] == opp[op := l.queue];
    assert Sweep(l.taker, opp - {op}) == SweepOut(l.taker, opp - {op}, []);
    assert Clear(side, same - {sp}, NextOpp(side, same, opp)) == ClearOut(same - {sp}, NextOpp(side, same, opp), []);
  }

  // ---- A blocked duel, whatever the queues ----

  /** How far a duel of any two queues is from being blocked. `n` is the opposite level's initial length; of the
      current cycle `n - skips` opposite orders have been skipped, and `turns` more cycles may follow. Either the
      opposite level is one user's already and so is all of `s` but a part that the cycles left suffice to turn;
      or the front of `s` has been skipping since the cycle began; or the cycle has lost a front to a fill. */
  ghost predicate Turning(s: Queue, o: Queue, n: nat, skips: nat, turns: nat) {
    && 1 <= skips <= n && |o| <= n
    && (|| Decided(s, o, turns)
        || (turns + 1 >= |s| && (s != [] ==> forall i :: 0 <= i < |o| && i >= |o| - (n - skips) ==>
               o[i].user == s[0].user))
        || turns >= |s|)
  }

  ghost predicate Decided(s: Queue, o: Queue, turns: nat) {
    exists user, m: nat :: DecidedFrom(s, o, turns, user, m)
  }

  ghost predicate DecidedFrom(s: Queue, o: Queue, turns: nat, user: UserId, m: nat) {
    m <= |s| && turns + 1 >= m && AllOf(user, o) && AllOf(user, s[m..])
  }

  lemma {:induction false} FrontUnturned(s: Queue, o: Queue, turns: nat, user: UserId, m: nat)
    requires DecidedFrom(s, o, turns, user, m) && s != [] && o != [] && s[0].user != o[0].user
    ensures m > 0
  {
    assert o[0] in o && s[0] in s;
    assert s[0..] == s;
  }

  lemma {:induction false} FillKeepsTurning(s: Queue, o: Queue, k: Quantity, n: nat, skips: nat, turns: nat)
    requires s != [] && o != [] && s[0].user != o[0].user && k == Min(s[0].remaining, o[0].remaining)
    requires Turning(s, o, n, skips, turns)
    ensures Turning(Cut(s, k), Cut(o, k), n, skips, turns)
  {
    var s', o' := Cut(s, k), Cut(o, k);
    if Decided(s, o, turns) {
      var user, m: nat :| DecidedFrom(s, o, turns, user, m);
      FrontUnturned(s, o, turns, user, m);
      assert AllOf(user, o');
      if |s'| < |s| {
        assert s'[m - 1..] == s[m..];
        assert DecidedFrom(s', o', turns, user, m - 1);
      } else {
        assert s'[m..] == s[m..];
        assert DecidedFrom(s', o', turns, user, m);
      }
    } else if |s'| == |s| && turns < |s| {
      assert |o'| == |o| - 1 && o' == o[1..];
      assert s'[0].user == s[0].user;
      forall i | 0 <= i < |o'| && i >= |o'| - (n - skips)
        ensures o'[i].user == s'[0].user
      {
        assert o'[i] == o[i + 1];
      }
    }
  }

  lemma {:induction false} SkipKeepsTurning(s: Queue, o: Queue, n: nat, skips: nat, turns: nat)
    requires s != [] && o != [] && s[0].user == o[0].user && skips > 1
    requires Turning(s, o, n, skips, turns)
    ensures Turning(s, o[1..] + [o[0]], n, skips - 1, turns)
  {
    var o' := o[1..] + [o[0]];
    if Decided(s, o, turns) {
      var user, m: nat :| DecidedFrom(s, o, turns, user, m);
      assert DecidedFrom(s, o', turns, user, m);
    } else if turns < |s| {
      forall i | 0 <= i < |o'| && i >= |o'| - (n - (skips - 1))
        ensures o'[i].user == s[0].user
      {
        assert i < |o| - 1 ==> o'[i] == o[i + 1];
      }
    }
  }

  lemma {:induction false} TurnKeepsTurning(s: Queue, o: Queue, n: nat, turns: nat)
    requires s != [] && o != [] && s[0].user == o[0].user && turns > 0
    requires Turning(s, o, n, 1, turns)
    ensures Turning(s[1..] + [s[0]], o[1..] + [o[0]], n, n, turns - 1)
  {
    var s', o' := s[1..] + [s[0]], o[1..] + [o[0]];
    if Decided(s, o, turns) {
      var user, m: nat :| DecidedFrom(s, o, turns, user, m);
      var m' := if m == 0 then 0 else m - 1;
      assert o[0] in o && s[0].user == user;
      assert m > 0 ==> s'[m'..] == s[m..] + [s[0]];
      assert m == 0 ==> s[m..] == s;
      assert DecidedFrom(s', o', turns - 1, user, m');
    } else if turns < |s| {
      CycleDone(s, o, n);
      assert s'[|s| - 1..] == [s[0]];
      assert DecidedFrom(s', o', turns - 1, s[0].user, |s| - 1);
    }
  }

  /** One front has skipped round the whole opposite level: it is all that user's. */
  lemma {:induction false} CycleDone(s: Queue, o: Queue, n: nat)
    requires s != [] && o != [] && s[0].user == o[0].user && |o| <= n
    requires forall i :: 0 <= i < |o| && i >= |o| - (n - 1) ==> o[i].user == s[0].user
    ensures AllOf(s[0].user, o) && AllOf(s[0].user, o[1..] + [o[0]])
  {
    forall x | x in o
      ensures x.user == s[0].user
    {
      var i :| 0 <= i < |o| && o[i] == x;
    }
  }

  lemma {:induction false} BlockedTurned(s: Queue, o: Queue, n: nat)
    requires s != [] && o != [] && s[0].user == o[0].user && Turning(s, o, n, 1, 0)
    ensures AllOf(s[0].user, s) && AllOf(s[0].user, o[1..] + [o[0]])
  {
    if Decided(s, o, 0) {
      var user, m: nat :| DecidedFrom(s, o, 0, user, m);
      assert o[0] in o && s == s[..m] + s[m..];
      assert forall x :: x in s ==> x == s[0] || x in s[m..];
    } else {
      CycleDone(s, o, n);
    }
  }

  lemma {:induction false} TurningBlocks(side: Side, s: Queue, o: Queue, p: Price, n: nat, skips: nat, turns: nat)
    requires Turning(s, o, n, skips, turns)
    ensures var d := Duel(side, s, o, p, n, skips, turns);
            d.blocked ==> AllOf(d.same[0].user, d.same) && AllOf(d.same[0].user, d.opp)
    decreases |s| + |o|, turns, skips
  {
    hide Turning, AllOf, Cut;
    if s != [] && o != [] {
      if s[0].user == o[0].user {
        if skips > 1 {
          SkipKeepsTurning(s, o, n, skips, turns);
          TurningBlocks(side, s, o[1..] + [o[0]], p, n, skips - 1, turns);
        } else {
          LastSkip(s, o, n, skips, turns);
          if turns > 0 {
            TurnKeepsTurning(s, o, n, turns);
            TurningBlocks(side, s[1..] + [s[0]], o[1..] + [o[0]], p, n, n, turns - 1);
          } else {
            BlockedTurned(s, o, n);
          }
        }
      } else {
        var k := Min(s[0].remaining, o[0].remaining);
        FillKeepsTurning(s, o, k, n, skips, turns);
        TurningBlocks(side, Cut(s, k), Cut(o, k), p, n, skips, turns);
      }
    }
  }

  lemma {:induction false} LastSkip(s: Queue, o: Queue, n: nat, skips: nat, turns: nat)
    requires Turning(s, o, n, skips, turns) && skips <= 1
    ensures skips == 1
  {
  }

  /** Two levels that the duel gives up on hold orders of one user only, on both sides, from any book: setting the
      opposite level aside never hides an order that the other level could trade with. */
  lemma {:induction false} BlockedIsOneUser(side: Side, same: LevelMap, opp: LevelMap)
    requires Crossed(side, same, opp) && FirstDuel(side, same, opp).blocked
    ensures var d := FirstDuel(side, same, opp);
            AllOf(d.same[0].user, d.same) && AllOf(d.same[0].user, d.opp)
  {
    hide Duel, AllOf;
    var op := Best(side.Opposite(), opp);
    var s, o := same[Best(side, same)], opp[op];
    assert s != [] && o != [] by {
      EmptyNotBlocked(side, s, o, op, |o|, |o|, if s == [] then 0 else |s| - 1);
    }
    TurningBlocks(side, s, o, op, |o|, |o|, |s| - 1);
  }

  lemma {:induction false} EmptyNotBlocked(side: Side, s: Queue, o: Queue, p: Price, n: nat, skips: nat, turns: nat)
    ensures s == [] || o == [] ==> !Duel(side, s, o, p, n, skips, turns).blocked
  {
  }
}
