/** Every match the two loops emit is legal where it happens, and the matches account for every change. */
module Soundness {
  import opened Types
  import opened Levels
  import opened Matching

  // ---- What one match may do ----

  /** Opposite sides, different users, a price inside both limits, and the smaller remainder traded. */
  predicate LegalMatch(m: Match) {
    && m.bid.side == Buy && m.ask.side == Sell
    && m.bid.user != m.ask.user
    && m.ask.price <= m.price <= m.bid.price
    && m.quantity == Min(m.bid.remaining, m.ask.remaining)
    && m.quantity > 0
  }

  function Kept(o: Order): set<Order> {
    if o.remaining == 0 then {} else {o}
  }

  /** The live orders after one match: both reduced, the filled ones gone. */
  function Step(live: set<Order>, m: Match): set<Order> {
    live - {m.bid, m.ask} + Kept(m.bid.Fills(m.quantity)) + Kept(m.ask.Fills(m.quantity))
  }

  function After(live: set<Order>, ms: seq<Match>): set<Order>
    decreases ms
  {
    if ms == [] then live else After(Step(live, ms[0]), ms[1..])
  }

  /** `ms` can be executed one after the other from `live`: each takes two live orders as they then stand. */
  predicate LegalRun(live: set<Order>, ms: seq<Match>)
    decreases ms
  {
    ms != [] ==> ms[0].bid in live && ms[0].ask in live && LegalMatch(ms[0]) && LegalRun(Step(live, ms[0]), ms[1..])
  }

  lemma {:induction false} RunAppend(live: set<Order>, ms: seq<Match>, ns: seq<Match>)
    requires LegalRun(live, ms) && LegalRun(After(live, ms), ns)
    ensures LegalRun(live, ms + ns) && After(live, ms + ns) == After(After(live, ms), ns)
    decreases ms
  {
    if ms == [] {
      assert ms + ns == ns;
    } else {
      RunAppend(Step(live, ms[0]), ms[1..], ns);
      assert (ms + ns)[1..] == ms[1..] + ns;
    }
  }

  // ---- What a legal run keeps ----

  lemma {:induction false} StepKeepsUnique(live: set<Order>, m: Match)
    requires UniqueIds(live) && m.bid in live && m.ask in live && LegalMatch(m)
    ensures UniqueIds(Step(live, m))
    ensures Ids(Step(live, m)) == Ids(live) - FilledBy(m)
  {
    var live', b, a := Step(live, m), m.bid.Fills(m.quantity), m.ask.Fills(m.quantity);
    assert b.id == m.bid.id && a.id == m.ask.id;
    forall i | i in Ids(live) - FilledBy(m)
      ensures i in Ids(live')
    {
      var o :| o in live && o.id == i;
      if o == m.bid {
        assert b in live';
      } else if o == m.ask {
        assert a in live';
      } else {
        assert o in live';
      }
    }
  }

  /** The ids a match fills completely. */
  function FilledBy(m: Match): set<OrderId> {
    (if m.quantity == m.bid.remaining then {m.bid.id} else {})
      + (if m.quantity == m.ask.remaining then {m.ask.id} else {})
  }

  function FilledIds(ms: seq<Match>): set<OrderId> {
    if ms == [] then {} else FilledBy(ms[0]) + FilledIds(ms[1..])
  }

  lemma {:induction false} FilledAppend(ms: seq<Match>, ns: seq<Match>)
    ensures FilledIds(ms + ns) == FilledIds(ms) + FilledIds(ns)
  {
    if ms == [] {
      assert ms + ns == ns;
    } else {
      FilledAppend(ms[1..], ns);
      assert (ms + ns)[1..] == ms[1..] + ns;
    }
  }

  /** A legal run keeps ids unique and removes exactly the filled ids. */
  lemma {:induction false} RunKeepsUnique(live: set<Order>, ms: seq<Match>)
    requires UniqueIds(live) && LegalRun(live, ms)
    ensures UniqueIds(After(live, ms))
    ensures Ids(After(live, ms)) == Ids(live) - FilledIds(ms)
    decreases ms
  {
    if ms != [] {
      StepKeepsUnique(live, ms[0]);
      RunKeepsUnique(Step(live, ms[0]), ms[1..]);
    }
  }

  /** No order changes any field but its remainder and status, and no remainder grows. */
  lemma {:induction false} RunOnlyShrinks(live: set<Order>, ms: seq<Match>, o: Order) returns (was: Order)
    requires LegalRun(live, ms) && o in After(live, ms)
    ensures was in live && was.Fixed() == o.Fixed() && o.remaining <= was.remaining
    decreases ms
  {
    if ms == [] {
      was := o;
    } else {
      var m := ms[0];
      was := RunOnlyShrinks(Step(live, m), ms[1..], o);
      if was !in live {
        was := if was == m.bid.Fills(m.quantity) then m.bid else m.ask;
      }
    }
  }

  /** What is left of order `id`; nothing once it is gone. */
  ghost function Left(live: set<Order>, id: OrderId): Quantity
    requires UniqueIds(live)
  {
    if o :| o in live && o.id == id then o.remaining else 0
  }

  /** Quantity that `ms` trades for order `id`, on either side. */
  function Traded(ms: seq<Match>, id: OrderId): nat {
    if ms == [] then 0
    else
      (if ms[0].bid.id == id then ms[0].quantity else 0) + (if ms[0].ask.id == id then ms[0].quantity else 0)
      + Traded(ms[1..], id)
  }

  lemma {:induction false} TradedAppend(ms: seq<Match>, ns: seq<Match>, id: OrderId)
    ensures Traded(ms + ns, id) == Traded(ms, id) + Traded(ns, id)
    decreases ms
  {
    if ms == [] {
      assert ms + ns == ns;
    } else {
      TradedAppend(ms[1..], ns, id);
      assert (ms + ns)[1..] == ms[1..] + ns;
    }
  }

  lemma {:induction false} LeftOf(live: set<Order>, o: Order)
    requires UniqueIds(live) && o in live
    ensures Left(live, o.id) == o.remaining
  {
  }

  lemma {:induction false} LeftKept(live: set<Order>, o: Order)
    requires UniqueIds(live) && Kept(o) <= live && (o.remaining == 0 ==> o.id !in Ids(live))
    ensures Left(live, o.id) == o.remaining
  {
    if o.remaining > 0 {
      assert o in Kept(o);
    }
  }

  lemma {:induction false} StepFall(live: set<Order>, m: Match, id: OrderId)
    requires UniqueIds(live) && m.bid in live && m.ask in live && LegalMatch(m)
    ensures UniqueIds(Step(live, m))
    ensures Traded([m], id) + Left(Step(live, m), id) == Left(live, id)
  {
    var live' := Step(live, m);
    StepKeepsUnique(live, m);
    LeftOf(live, m.bid);
    LeftOf(live, m.ask);
    assert m.bid.Fills(m.quantity).id == m.bid.id && m.ask.Fills(m.quantity).id == m.ask.id;
    LeftKept(live', m.bid.Fills(m.quantity));
    LeftKept(live', m.ask.Fills(m.quantity));
    if id != m.bid.id && id != m.ask.id {
      assert forall o: Order :: o.id == id ==> (o in live <==> o in live');
    }
  }

  /** Nothing is traded twice or lost: what an order trades is exactly what its remainder falls by. */
  lemma {:induction false} TradedIsTheFall(live: set<Order>, ms: seq<Match>, id: OrderId)
    requires UniqueIds(live) && LegalRun(live, ms)
    ensures UniqueIds(After(live, ms))
    ensures Traded(ms, id) + Left(After(live, ms), id) == Left(live, id)
    decreases ms
  {
    if ms != [] {
      StepFall(live, ms[0], id);
      TradedIsTheFall(Step(live, ms[0]), ms[1..], id);
    }
  }

  // ---- The GTC duel ----

  /** A level of the side just added to, and one of the opposite side, whose prices cross. */
  ghost predicate DuelOk(side: Side, s: Queue, o: Queue, sp: Price, op: Price) {
    QueueOk(side, sp, s) && QueueOk(side.Opposite(), op, o) && Crosses(side, sp, op)
  }

  lemma {:induction false} CutOk(side: Side, p: Price, q: Queue, k: Quantity)
    requires QueueOk(side, p, q) && q != [] && 0 < k <= q[0].remaining
    ensures QueueOk(side, p, Cut(q, k))
    ensures Elems(Cut(q, k)) == Elems(q) - {q[0]} + Kept(q[0].Fills(k))
  {
    hide Distinct, Elems;
    CutDistinct(q, k);
    CutElems(q, k);
    assert forall o :: o in Cut(q, k) ==> o in q[1..] || o == q[0].Fills(k);
    assert q[0] in q && forall o :: o in q[1..] ==> o in q;
  }

  lemma {:induction false} CutDistinct(q: Queue, k: Quantity)
    requires Distinct(q) && q != [] && 0 < k <= q[0].remaining
    ensures Distinct(Cut(q, k))
  {
    var c := Cut(q, k);
    assert q[0].Fills(k).id == q[0].id;
    if |c| == |q| {
      assert forall i :: 0 <= i < |c| ==> c[i].id == q[i].id;
    } else {
      assert forall i :: 0 <= i < |c| ==> c[i] == q[i + 1];
    }
  }

  lemma {:induction false} CutElems(q: Queue, k: Quantity)
    requires Distinct(q) && q != [] && 0 < k <= q[0].remaining
    ensures Elems(Cut(q, k)) == Elems(q) - {q[0]} + Kept(q[0].Fills(k))
  {
    assert q == [q[0]] + q[1..];
    forall o | o in q[1..]
      ensures o in q && o != q[0]
    {
      var i :| 0 <= i < |q[1..]| && q[1..][i] == o;
      assert q[i + 1] == o;
    }
    assert forall o :: o in Cut(q, k) <==> o in q[1..] || (o == q[0].Fills(k) && o.remaining > 0);
  }

  lemma {:induction false} TurnOk(side: Side, p: Price, q: Queue)
    requires QueueOk(side, p, q) && q != []
    ensures QueueOk(side, p, q[1..] + [q[0]])
    ensures Elems(q[1..] + [q[0]]) == Elems(q)
  {
    var t := q[1..] + [q[0]];
    assert q == [q[0]] + q[1..];
    forall i, j | 0 <= i < j < |t|
      ensures t[i].id != t[j].id
    {
      assert t[i] == q[i + 1];
    }
  }

  lemma {:induction false} FrontOpen(side: Side, p: Price, q: Queue)
    requires QueueOk(side, p, q) && q != []
    ensures q[0].remaining > 0
  {
  }

  lemma {:induction false} DuelKeepsQueues(side: Side, s: Queue, o: Queue, sp: Price, op: Price, n: nat, skips: nat,
                                           turns: nat)
    requires DuelOk(side, s, o, sp, op)
    ensures var r := Duel(side, s, o, op, n, skips, turns); DuelOk(side, r.same, r.opp, sp, op)
    decreases |s| + |o|, turns, skips
  {
    hide QueueOk, Cut, Elems;
    if s == [] || o == [] {
    } else if s[0].user == o[0].user {
      TurnOk(side.Opposite(), op, o);
      if skips > 1 {
        DuelKeepsQueues(side, s, o[1..] + [o[0]], sp, op, n, skips - 1, turns);
      } else if turns > 0 {
        TurnOk(side, sp, s);
        DuelKeepsQueues(side, s[1..] + [s[0]], o[1..] + [o[0]], sp, op, n, n, turns - 1);
      }
    } else {
      FrontOpen(side, sp, s);
      FrontOpen(side.Opposite(), op, o);
      var k := Min(s[0].remaining, o[0].remaining);
      CutOk(side, sp, s, k);
      CutOk(side.Opposite(), op, o, k);
      DuelKeepsQueues(side, Cut(s, k), Cut(o, k), sp, op, n, skips, turns);
    }
  }

  /** From any two crossing levels and whatever else is live, the duel's matches form a legal run ending in its
      queues. */
  lemma {:induction false} DuelSound(side: Side, s: Queue, o: Queue, sp: Price, op: Price, n: nat, skips: nat,
                                     turns: nat, rest: set<Order>)
    requires DuelOk(side, s, o, sp, op)
    requires UniqueIds(Elems(s) + Elems(o) + rest) && rest !! Elems(s) + Elems(o)
    ensures var r := Duel(side, s, o, op, n, skips, turns);
            && DuelOk(side, r.same, r.opp, sp, op)
            && LegalRun(Elems(s) + Elems(o) + rest, r.matches)
            && After(Elems(s) + Elems(o) + rest, r.matches) == Elems(r.same) + Elems(r.opp) + rest
            && rest !! Elems(r.same) + Elems(r.opp)
    decreases |s| + |o|, turns, skips
  {
    hide LegalMatch, Step, UniqueIds, Distinct, Cut;
    if s == [] || o == [] {
    } else if s[0].user == o[0].user {
      var o' := o[1..] + [o[0]];
      TurnOk(side.Opposite(), op, o);
      if skips > 1 {
        DuelSound(side, s, o', sp, op, n, skips - 1, turns, rest);
      } else if turns > 0 {
        TurnOk(side, sp, s);
        DuelSound(side, s[1..] + [s[0]], o', sp, op, n, n, turns - 1, rest);
      }
    } else {
      var k := Min(s[0].remaining, o[0].remaining);
      DuelStep(side, s, o, sp, op, rest);
      DuelSound(side, Cut(s, k), Cut(o, k), sp, op, n, skips, turns, rest);
    }
  }

  lemma {:induction false} DuelStep(side: Side, s: Queue, o: Queue, sp: Price, op: Price, rest: set<Order>)
    requires DuelOk(side, s, o, sp, op) && s != [] && o != [] && s[0].user != o[0].user
    requires UniqueIds(Elems(s) + Elems(o) + rest) && rest !! Elems(s) + Elems(o)
    ensures var k := Min(s[0].remaining, o[0].remaining);
            var m := Pair(side, s[0], o[0], op, k);
            && LegalMatch(m) && DuelOk(side, Cut(s, k), Cut(o, k), sp, op)
            && Step(Elems(s) + Elems(o) + rest, m) == Elems(Cut(s, k)) + Elems(Cut(o, k)) + rest
            && UniqueIds(Elems(Cut(s, k)) + Elems(Cut(o, k)) + rest)
            && rest !! Elems(Cut(s, k)) + Elems(Cut(o, k))
  {
    hide Distinct, Cut;
    var k := Min(s[0].remaining, o[0].remaining);
    var m := Pair(side, s[0], o[0], op, k);
    CutOk(side, sp, s, k);
    CutOk(side.Opposite(), op, o, k);
    StepKeepsUnique(Elems(s) + Elems(o) + rest, m);
    assert s[0].Fills(k).id == s[0].id && o[0].Fills(k).id == o[0].id;
  }

  // ---- The whole GTC loop ----

  /** The two sides and `rest` hold well-formed, pairwise different orders. */
  ghost predicate SidesOk(side: Side, same: LevelMap, opp: LevelMap, rest: set<Order>) {
    && LevelsOk(side, same) && LevelsOk(side.Opposite(), opp)
    && UniqueIds(Pool(same) + Pool(opp) + rest) && rest !! Pool(same) + Pool(opp)
  }

  /** Matches of one level against one level, whatever becomes of the two levels afterwards. */
  lemma {:induction false} BoutSound(side: Side, same: LevelMap, opp: LevelMap, rest: set<Order>, sp: Price,
                                     op: Price) returns (rest1: set<Order>)
    requires SidesOk(side, same, opp, rest) && sp in same && op in opp && Crosses(side, sp, op)
    ensures rest1 == Pool(same - {sp}) + Pool(opp - {op}) + rest
    ensures var live := Pool(same) + Pool(opp) + rest;
            var d := Duel(side, same[sp], opp[op], op, |opp[op]|, |opp[op]|, |same[sp]| - 1);
            && DuelOk(side, d.same, d.opp, sp, op)
            && LegalRun(live, d.matches)
            && After(live, d.matches) == Elems(d.same) + Elems(d.opp) + rest1
            && UniqueIds(After(live, d.matches))
            && rest1 !! Elems(d.same) + Elems(d.opp)
  {
    hide Duel;
    var s, o := same[sp], opp[op];
    rest1 := Pool(same - {sp}) + Pool(opp - {op}) + rest;
    PoolSplit(same, sp);
    PoolSplit(opp, op);
    assert Pool(same) + Pool(opp) + rest == Elems(s) + Elems(o) + rest1;
    LevelApart(side, same, sp);
    LevelApart(side.Opposite(), opp, op);
    SidesApart(side, same, opp);
    DuelSound(side, s, o, sp, op, |o|, |o|, |s| - 1, rest1);
    RunKeepsUnique(Pool(same) + Pool(opp) + rest, Duel(side, s, o, op, |o|, |o|, |s| - 1).matches);
  }

  /** Both levels written back. */
  lemma {:induction false} WriteBack(side: Side, same: LevelMap, opp: LevelMap, rest: set<Order>, sp: Price,
                                     op: Price, s: Queue, o: Queue)
    requires SidesOk(side, same, opp, rest) && DuelOk(side, s, o, sp, op)
    requires var rest1 := Pool(same - {sp}) + Pool(opp - {op}) + rest;
             rest1 !! Elems(s) + Elems(o) && UniqueIds(Elems(s) + Elems(o) + rest1)
    ensures SidesOk(side, Put(same, sp, s), Put(opp, op, o), rest)
    ensures Pool(Put(same, sp, s)) + Pool(Put(opp, op, o)) + rest
         == Elems(s) + Elems(o) + (Pool(same - {sp}) + Pool(opp - {op}) + rest)
  {
    hide Put, Pool, LevelsOk, QueueOk, Elems, UniqueIds;
    PoolPut(same, sp, s);
    PoolPut(opp, op, o);
    LevelsPut(side, same, sp, s);
    LevelsPut(side.Opposite(), opp, op, o);
    PoolShrinks(same, sp);
    PoolShrinks(opp, op);
    assert Pool(Put(same, sp, s)) + Pool(Put(opp, op, o)) + rest
        == Elems(s) + Elems(o) + (Pool(same - {sp}) + Pool(opp - {op}) + rest);
  }

  lemma {:induction false} LevelsPut(side: Side, m: LevelMap, p: Price, q: Queue)
    requires LevelsOk(side, m) && QueueOk(side, p, q)
    ensures LevelsOk(side, Put(m, p, q))
  {
    hide QueueOk;
  }

  /** The level `p` set aside: it joins `rest`. */
  lemma {:induction false} SetAside(side: Side, same: LevelMap, opp: LevelMap, rest: set<Order>, p: Price)
    requires SidesOk(side, same, opp, rest) && p in opp
    ensures SidesOk(side, same, opp - {p}, rest + Elems(opp[p]))
    ensures Pool(same) + Pool(opp - {p}) + (rest + Elems(opp[p])) == Pool(same) + Pool(opp) + rest
  {
    PoolSplit(opp, p);
    LevelApart(side.Opposite(), opp, p);
    SidesApart(side, same, opp);
  }

  lemma {:induction false} PoolShrinks(m: LevelMap, p: Price)
    ensures Pool(m - {p}) <= Pool(m)
  {
  }

  lemma {:induction false} PutBack(side: Side, m: LevelMap, p: Price, q: Queue, others: set<Order>, rest: set<Order>)
    requires p !in m && LevelsOk(side, m) && q != [] && QueueOk(side, p, q)
    ensures LevelsOk(side, m[p := q])
    ensures others + Pool(m) + (rest + Elems(q)) == others + Pool(m[p := q]) + rest
  {
    PoolSplit(m[p := q], p);
    assert m[p := q] - {p} == m;
  }

  /** One turn of the outer loop; the level set aside joins `rest`. */
  lemma {:induction false} NextOk(side: Side, same: LevelMap, opp: LevelMap,
                                  rest: set<Order>) returns (rest': set<Order>)
    requires SidesOk(side, same, opp, rest) && Crossed(side, same, opp)
    ensures var d := FirstDuel(side, same, opp);
            var live := Pool(same) + Pool(opp) + rest;
            && rest' == (if d.blocked then rest + Elems(d.opp) else rest)
            && LegalRun(live, d.matches)
            && After(live, d.matches) == Pool(NextSame(side, same, opp)) + Pool(NextOpp(side, same, opp)) + rest'
            && SidesOk(side, NextSame(side, same, opp), NextOpp(side, same, opp), rest')
            && QueueOk(side.Opposite(), Best(side.Opposite(), opp), d.opp)
  {
    hide Duel, UniqueIds;
    var d, sp, op := FirstDuel(side, same, opp), Best(side, same), Best(side.Opposite(), opp);
    var rest1 := BoutSound(side, same, opp, rest, sp, op);
    WriteBack(side, same, opp, rest, sp, op, d.same, d.opp);
    rest' := if d.blocked then rest + Elems(d.opp) else rest;
    if d.blocked {
      SetAside(side, Put(same, sp, d.same), opp[op := d.opp], rest, op);
      assert opp[op := d.opp] - {op} == opp - {op};
    }
  }

  /** `r.matches` is a legal run from `live` to the orders of `r` and `rest`. */
  ghost predicate ClearDone(side: Side, live: set<Order>, r: ClearOut, rest: set<Order>) {
    && LevelsOk(side, r.same) && LevelsOk(side.Opposite(), r.opp)
    && LegalRun(live, r.matches)
    && After(live, r.matches) == Pool(r.same) + Pool(r.opp) + rest
  }

  lemma {:induction false} ClearAfterBout(side: Side, live: set<Order>, ms: seq<Match>, r: ClearOut, rest: set<Order>)
    requires LegalRun(live, ms) && ClearDone(side, After(live, ms), r, rest)
    ensures ClearDone(side, live, r.(matches := ms + r.matches), rest)
  {
    RunAppend(live, ms, r.matches);
  }

  /** The level set aside put back at the end. */
  lemma {:induction false} ClearPutBack(side: Side, live: set<Order>, r: ClearOut, p: Price, q: Queue, rest: set<Order>)
    requires ClearDone(side, live, r, rest + Elems(q)) && p !in r.opp && q != [] && QueueOk(side.Opposite(), p, q)
    ensures ClearDone(side, live, r.(opp := r.opp[p := q]), rest)
  {
    PutBack(side.Opposite(), r.opp, p, q, Pool(r.same), rest);
  }

  lemma {:induction false} ClearKeys(side: Side, same: LevelMap, opp: LevelMap)
    ensures Clear(side, same, opp).opp.Keys <= opp.Keys
    decreases |same| + |opp|
  {
    if Crossed(side, same, opp) {
      NextShrinks(side, same, opp);
      ClearKeys(side, NextSame(side, same, opp), NextOpp(side, same, opp));
    }
  }

  /** From any two sides, crossed or not: the matches are a legal run from the orders before to the orders after. */
  lemma {:induction false} ClearSound(side: Side, same: LevelMap, opp: LevelMap, rest: set<Order>)
    requires SidesOk(side, same, opp, rest)
    ensures ClearDone(side, Pool(same) + Pool(opp) + rest, Clear(side, same, opp), rest)
    decreases |same| + |opp|
  {
    hide Duel;
    if Crossed(side, same, opp) {
      var same', opp' := NextSame(side, same, opp), NextOpp(side, same, opp);
      var d, r := FirstDuel(side, same, opp), Clear(side, same', opp');
      var live := Pool(same) + Pool(opp) + rest;
      var rest' := NextOk(side, same, opp, rest);
      NextShrinks(side, same, opp);
      ClearSound(side, same', opp', rest');
      ClearAfterBout(side, live, d.matches, r, rest');
      if d.blocked {
        ClearKeys(side, same', opp');
        ClearPutBack(side, live, r.(matches := d.matches + r.matches), Best(side.Opposite(), opp), d.opp, rest);
      }
    }
  }

  lemma {:induction false} LevelApart(side: Side, m: LevelMap, p: Price)
    requires LevelsOk(side, m) && p in m
    ensures Elems(m[p]) !! Pool(m - {p})
  {
  }

  lemma {:induction false} SidesApart(side: Side, same: LevelMap, opp: LevelMap)
    requires LevelsOk(side, same) && LevelsOk(side.Opposite(), opp)
    ensures Pool(same) !! Pool(opp)
  {
    assert forall o :: o in Pool(same) ==> o.side == side;
    assert forall o :: o in Pool(opp) ==> o.side == side.Opposite();
  }

  // ---- FAK and FOK ----

  /** `q` as the resting level, `taker` beside it, `rest` everything else that is live. */
  lemma {:induction false} SweepLevelSound(taker: Order, q: Queue, p: Price, budget: nat, rest: set<Order>)
    requires QueueOk(taker.side.Opposite(), p, q) && Crosses(taker.side, taker.price, p)
    requires UniqueIds(Kept(taker) + Elems(q) + rest) && rest !! Kept(taker) + Elems(q)
    ensures var r := SweepLevel(taker, q, budget);
            && QueueOk(taker.side.Opposite(), p, r.queue)
            && r.taker.Fixed() == taker.Fixed()
            && LegalRun(Kept(taker) + Elems(q) + rest, r.matches)
            && After(Kept(taker) + Elems(q) + rest, r.matches) == Kept(r.taker) + Elems(r.queue) + rest
            && rest !! Kept(r.taker) + Elems(r.queue)
    decreases taker.remaining, budget + |q|
  {
    hide LegalMatch, Step, UniqueIds;
    if taker.remaining == 0 || q == [] {
    } else if q[0].user == taker.user {
      TurnOk(taker.side.Opposite(), p, q);
      if budget > 1 {
        SweepLevelSound(taker, q[1..] + [q[0]], p, budget - 1, rest);
      }
    } else {
      var k := Min(taker.remaining, q[0].remaining);
      assert Elems([taker]) == {taker};
      DuelStep(taker.side, [taker], q, taker.price, p, rest);
      assert Elems(Cut([taker], k)) == Kept(taker.Fills(k));
      SweepLevelSound(taker.Fills(k), Cut(q, k), p, budget, rest);
    }
  }

  ghost predicate SweepOk(taker: Order, m: LevelMap, rest: set<Order>) {
    LevelsOk(taker.side.Opposite(), m) && UniqueIds(Kept(taker) + Pool(m) + rest) && rest !! Kept(taker) + Pool(m)
  }

  lemma {:induction false} SweepBoutSound(taker: Order, m: LevelMap, rest: set<Order>, p: Price)
    requires SweepOk(taker, m, rest) && p in m && Crosses(taker.side, taker.price, p)
    ensures var live := Kept(taker) + Pool(m) + rest;
            var l := SweepLevel(taker, m[p], |m[p]|);
            && QueueOk(taker.side.Opposite(), p, l.queue)
            && l.taker.Fixed() == taker.Fixed()
            && LegalRun(live, l.matches)
            && After(live, l.matches) == Kept(l.taker) + Elems(l.queue) + (Pool(m - {p}) + rest)
            && UniqueIds(After(live, l.matches))
            && Pool(m - {p}) + rest !! Kept(l.taker) + Elems(l.queue)
  {
    var l := SweepLevel(taker, m[p], |m[p]|);
    PoolSplit(m, p);
    LevelApart(taker.side.Opposite(), m, p);
    assert Kept(taker) + Pool(m) + rest == Kept(taker) + Elems(m[p]) + (Pool(m - {p}) + rest);
    TakerApart(taker, m);
    SweepLevelSound(taker, m[p], p, |m[p]|, Pool(m - {p}) + rest);
    RunKeepsUnique(Kept(taker) + Pool(m) + rest, l.matches);
  }

  lemma {:induction false} TakerApart(taker: Order, m: LevelMap)
    requires LevelsOk(taker.side.Opposite(), m)
    ensures Kept(taker) !! Pool(m)
  {
    assert forall o :: o in Pool(m) ==> o.side == taker.side.Opposite();
  }

  /** The sweep goes on without the level just visited. */
  lemma {:induction false} SweepGoesOn(taker: Order, m: LevelMap, rest: set<Order>, p: Price)
    requires SweepOk(taker, m, rest) && p in m && Crosses(taker.side, taker.price, p)
    ensures var l := SweepLevel(taker, m[p], |m[p]|);
            && After(Kept(taker) + Pool(m) + rest, l.matches) == Kept(l.taker) + Pool(m - {p}) + (rest + Elems(l.queue))
            && SweepOk(l.taker, m - {p}, rest + Elems(l.queue))
  {
    var l := SweepLevel(taker, m[p], |m[p]|);
    SweepBoutSound(taker, m, rest, p);
    PoolShrinks(m, p);
    Regroup(Kept(l.taker), Elems(l.queue), Pool(m - {p}), rest);
    TakerApartQueue(l.taker, p, l.queue);
  }

  lemma {:induction false} Regroup(a: set<Order>, b: set<Order>, c: set<Order>, d: set<Order>)
    ensures a + b + (c + d) == a + c + (d + b)
  {
  }

  lemma {:induction false} TakerApartQueue(taker: Order, p: Price, q: Queue)
    requires QueueOk(taker.side.Opposite(), p, q)
    ensures Kept(taker) !! Elems(q)
  {
    assert forall o :: o in Elems(q) ==> o.side == taker.side.Opposite();
  }

  /** `r.matches` is a legal run from `live` to the taker's remainder, the orders of `r` and `rest`. */
  ghost predicate SweepDone(taker: Order, live: set<Order>, r: SweepOut, rest: set<Order>) {
    && LevelsOk(taker.side.Opposite(), r.levels)
    && r.taker.Fixed() == taker.Fixed()
    && LegalRun(live, r.matches)
    && After(live, r.matches) == Kept(r.taker) + Pool(r.levels) + rest
  }

  lemma {:induction false} SweepAfterBout(taker: Order, taker1: Order, live: set<Order>, ms: seq<Match>, r: SweepOut,
                                          rest: set<Order>)
    requires LegalRun(live, ms) && SweepDone(taker1, After(live, ms), r, rest)
    requires taker1.Fixed() == taker.Fixed()
    ensures SweepDone(taker, live, r.(matches := ms + r.matches), rest)
  {
    RunAppend(live, ms, r.matches);
    assert taker.Fixed().side == taker.side && taker1.Fixed().side == taker1.side;
  }

  lemma {:induction false} SweepPutBack(taker: Order, live: set<Order>, r: SweepOut, p: Price, q: Queue,
                                        rest: set<Order>)
    requires SweepDone(taker, live, r, rest + Elems(q)) && p !in r.levels && QueueOk(taker.side.Opposite(), p, q)
    ensures SweepDone(taker, live, if q == [] then r else r.(levels := r.levels[p := q]), rest)
  {
    if q == [] {
      assert rest + Elems(q) == rest;
    } else {
      PutBack(taker.side.Opposite(), r.levels, p, q, Kept(r.taker), rest);
    }
  }

  lemma {:induction false} SweepKeys(taker: Order, m: LevelMap)
    ensures Sweep(taker, m).levels.Keys <= m.Keys
    decreases |m|
  {
    if taker.remaining > 0 && m != map[] {
      var p := Best(taker.side.Opposite(), m);
      SweepKeys(SweepLevel(taker, m[p], |m[p]|).taker, m - {p});
    }
  }

  /** From any book: a FAK or FOK sweep is a legal run of the taker against the resting orders. */
  lemma {:induction false} SweepSound(taker: Order, m: LevelMap, rest: set<Order>)
    requires SweepOk(taker, m, rest)
    ensures SweepDone(taker, Kept(taker) + Pool(m) + rest, Sweep(taker, m), rest)
    decreases |m|
  {
    if taker.remaining == 0 || m == map[] { return; }
    var p := Best(taker.side.Opposite(), m);
    if !Crosses(taker.side, taker.price, p) { return; }
    var l := SweepLevel(taker, m[p], |m[p]|);
    SweepBoutSound(taker, m, rest, p);
    var live, r := Kept(taker) + Pool(m) + rest, Sweep(l.taker, m - {p});
    SweepGoesOn(taker, m, rest, p);
    SweepSound(l.taker, m - {p}, rest + Elems(l.queue));
    SweepAfterBout(taker, l.taker, live, l.matches, r, rest + Elems(l.queue));
    SweepKeys(l.taker, m - {p});
    SweepPutBack(taker, live, r.(matches := l.matches + r.matches), p, l.queue, rest);
  }
}
