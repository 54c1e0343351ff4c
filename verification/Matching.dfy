/** The two matching loops as recursive functions; the book's methods are proved equal to them. */
module Matching {
  import opened Types
  import opened Levels

  // ---- A taker that never rests (FAK, FOK) against the opposite side ----

  datatype LevelOut = LevelOut(taker: Order, queue: Queue, matches: seq<Match>, blocked: bool)

  /** One price level. `budget` is the level's initial length less the own orders rotated so far. */
  function SweepLevel(taker: Order, q: Queue, budget: nat): (r: LevelOut)
    ensures !r.blocked && r.queue != [] ==> r.taker.remaining == 0
    ensures r.blocked ==> r.queue != [] && r.taker.remaining > 0
    decreases taker.remaining, budget + |q|
  {
    if taker.remaining == 0 || q == [] then
      LevelOut(taker, q, [], false)
    else if q[0].user == taker.user then
      if budget <= 1 then LevelOut(taker, q[1..] + [q[0]], [], true)
      else SweepLevel(taker, q[1..] + [q[0]], budget - 1)
    else
      var k := Min(taker.remaining, q[0].remaining);
      var left := q[0].Fills(k);
      var rest := if left.remaining == 0 then q[1..] else [left] + q[1..];
      var r := SweepLevel(taker.Fills(k), rest, budget);
      r.(matches := [MatchOf(taker, q[0], q[0].price, k)] + r.matches)
  }

  datatype SweepOut = SweepOut(taker: Order, levels: LevelMap, matches: seq<Match>)

  /** All levels, best first. An emptied level is dropped; one of own orders only is set aside and put
      back; one that still has orders for others means the taker is done. */
  function Sweep(taker: Order, m: LevelMap): SweepOut
    decreases |m|
  {
    if taker.remaining == 0 || m == map[] then SweepOut(taker, m, [])
    else
      var p := Best(taker.side.Opposite(), m);
      if !Crosses(taker.side, taker.price, p) then SweepOut(taker, m, [])
      else
        var l := SweepLevel(taker, m[p], |m[p]|);
        var r := Sweep(l.taker, m - {p});
        SweepOut(r.taker, if l.queue == [] then r.levels else r.levels[p := l.queue], l.matches + r.matches)
  }

  // ---- A book whose two sides may cross (GTC) ----

  datatype DuelOut = DuelOut(same: Queue, opp: Queue, matches: seq<Match>, blocked: bool)

  /** The best two levels against each other; `s` is the side of the order just added, `n` the
      opposite level's initial length. `skips` opposite rotations are left before the front of `s` is
      turned aside, which may happen `turns` more times. */
  function Duel(side: Side, s: Queue, o: Queue, price: Price, n: nat, skips: nat, turns: nat): (r: DuelOut)
    ensures !r.blocked ==> r.same == [] || r.opp == []
    ensures r.blocked ==> r.same != [] && r.opp != []
    decreases |s| + |o|, turns, skips
  {
    if s == [] || o == [] then DuelOut(s, o, [], false)
    else if s[0].user == o[0].user then
      var o' := o[1..] + [o[0]];
      if skips > 1 then Duel(side, s, o', price, n, skips - 1, turns)
      else if turns > 0 then Duel(side, s[1..] + [s[0]], o', price, n, n, turns - 1)
      else DuelOut(s, o', [], true)
    else
      var k := Min(s[0].remaining, o[0].remaining);
      var r := Duel(side, Cut(s, k), Cut(o, k), price, n, skips, turns);
      r.(matches := [Pair(side, s[0], o[0], price, k)] + r.matches)
  }

  /** The queue after its front order is filled by `k`. */
  function Cut(q: Queue, k: Quantity): (r: Queue)
    requires q != [] && k <= q[0].remaining
    ensures |r| == if k == q[0].remaining then |q| - 1 else |q|
  {
    var left := q[0].Fills(k);
    if left.remaining == 0 then q[1..] else [left] + q[1..]
  }

  datatype ClearOut = ClearOut(same: LevelMap, opp: LevelMap, matches: seq<Match>)

  /** Whether the best prices of the two sides cross. */
  predicate Crossed(side: Side, same: LevelMap, opp: LevelMap) {
    same != map[] && opp != map[] && Crosses(side, Best(side, same), Best(side.Opposite(), opp))
  }

  /** The best level of each side against the other. */
  function FirstDuel(side: Side, same: LevelMap, opp: LevelMap): DuelOut
    requires Crossed(side, same, opp)
  {
    var op := Best(side.Opposite(), opp);
    var s, o := same[Best(side, same)], opp[op];
    Duel(side, s, o, op, |o|, |o|, if s == [] then 0 else |s| - 1)
  }

  /** The opposite side after that duel; a level of self-trades only is set aside. */
  function NextOpp(side: Side, same: LevelMap, opp: LevelMap): LevelMap
    requires Crossed(side, same, opp)
  {
    var d, op := FirstDuel(side, same, opp), Best(side.Opposite(), opp);
    if d.blocked then opp - {op} else Put(opp, op, d.opp)
  }

  function NextSame(side: Side, same: LevelMap, opp: LevelMap): LevelMap
    requires Crossed(side, same, opp)
  {
    Put(same, Best(side, same), FirstDuel(side, same, opp).same)
  }

  /** Duel after duel until the sides no longer cross; then the levels set aside come back. */
  function Clear(side: Side, same: LevelMap, opp: LevelMap): ClearOut
    decreases |same| + |opp|
  {
    if !Crossed(side, same, opp) then ClearOut(same, opp, [])
    else
      NextShrinks(side, same, opp);
      var d := FirstDuel(side, same, opp);
      var r := Clear(side, NextSame(side, same, opp), NextOpp(side, same, opp));
      ClearOut(r.same, if d.blocked then r.opp[Best(side.Opposite(), opp) := d.opp] else r.opp, d.matches + r.matches)
  }

  lemma {:induction false} NextShrinks(side: Side, same: LevelMap, opp: LevelMap)
    requires Crossed(side, same, opp)
    ensures |NextSame(side, same, opp)| + |NextOpp(side, same, opp)| < |same| + |opp|
  {
    var d, op := FirstDuel(side, same, opp), Best(side.Opposite(), opp);
    PutSize(same, Best(side, same), d.same);
    PutSize(opp, op, d.opp);
    PutSize(opp, op, []);
  }

  lemma {:induction false} PutSize(m: LevelMap, p: Price, q: Queue)
    requires p in m
    ensures |Put(m, p, q)| == if q == [] then |m| - 1 else |m|
  {
    assert (m - {p}).Keys == m.Keys - {p};
    assert q != [] ==> m[p := q].Keys == m.Keys;
  }
}
