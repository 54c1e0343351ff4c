/** Remaining quantity and status of orders outside the engine: one at a time in memory, in batches in the database. */
module Fills {
  import opened Types

  type Id = int

  /** Orders are stored per engine order id and pair. */
  datatype Key = Key(id: Id, pair: string)

  datatype Row = Row(remaining: int, status: string)

  /** One engine trade, with the quantity each order gave or took. */
  datatype Fill = Fill(pair: string, bidOrder: Id, bidQuantity: int, askOrder: Id, askQuantity: int)

  /** One order's share of a fill. */
  datatype Leg = Leg(key: Key, quantity: int)

  /** The CASE rule, and the switch of the live registry. */
  function Reduced(row: Row, quantity: int): Row {
    var left := row.remaining - quantity;
    Row(left, if left <= 0 then "Filled" else if row.status == "Empty" then "PartiallyFilled" else row.status)
  }

  // ---- One fill at a time ----

  function ApplyLeg(rows: map<Key, Row>, leg: Leg): map<Key, Row> {
    if leg.key in rows then rows[leg.key := Reduced(rows[leg.key], leg.quantity)] else rows
  }

  function ApplyLegs(rows: map<Key, Row>, legs: seq<Leg>): map<Key, Row> {
    if legs == [] then rows else ApplyLeg(ApplyLegs(rows, legs[..|legs| - 1]), legs[|legs| - 1])
  }

  function Legs(fills: seq<Fill>): (r: seq<Leg>)
    ensures |r| == 2 * |fills|
  {
    seq(2 * |fills|, i requires 0 <= i < 2 * |fills| =>
      var f := fills[i / 2];
      if i % 2 == 0 then Leg(Key(f.bidOrder, f.pair), f.bidQuantity) else Leg(Key(f.askOrder, f.pair), f.askQuantity))
  }

  lemma {:induction false} LegsAppend(fills: seq<Fill>, f: Fill)
    ensures Legs(fills + [f])
         == Legs(fills) + [Leg(Key(f.bidOrder, f.pair), f.bidQuantity)] + [Leg(Key(f.askOrder, f.pair), f.askQuantity)]
  {
    var all := fills + [f];
    assert forall i :: 0 <= i < |fills| ==> all[i] == fills[i];
  }

  // ---- A batch at a time ----

  /** Go's `deltas[key] += quantity`. */
  function Counted(deltas: map<Key, int>, leg: Leg): map<Key, int> {
    deltas[leg.key := (if leg.key in deltas then deltas[leg.key] else 0) + leg.quantity]
  }

  function Deltas(legs: seq<Leg>): map<Key, int> {
    if legs == [] then map[] else Counted(Deltas(legs[..|legs| - 1]), legs[|legs| - 1])
  }

  /** The one bulk UPDATE. */
  function Updated(rows: map<Key, Row>, deltas: map<Key, int>): map<Key, Row> {
    map k | k in rows :: if k in deltas then Reduced(rows[k], deltas[k]) else rows[k]
  }

  /** Whole batches, one after the other. */
  function UpdatedAll(rows: map<Key, Row>, batches: seq<seq<Leg>>): map<Key, Row> {
    if batches == [] then rows else UpdatedAll(Updated(rows, Deltas(batches[0])), batches[1..])
  }

  function Flat(batches: seq<seq<Leg>>): seq<Leg> {
    if batches == [] then [] else batches[0] + Flat(batches[1..])
  }

  predicate NonNegative(legs: seq<Leg>) {
    forall l :: l in legs ==> l.quantity >= 0
  }

  // ---- Two reductions are one ----

  /** Splitting a reduction in two agrees with doing it at once exactly when the first part does not mark the
      order filled while the second brings quantity back. */
  lemma {:induction false} ReducedTwice(row: Row, a: int, b: int)
    ensures Reduced(Reduced(row, a), b) == Reduced(row, a + b)
       <==> row.remaining - a > 0 || row.remaining - a - b <= 0 || row.status == "Filled"
  {
    var once, twice := Reduced(row, a + b), Reduced(Reduced(row, a), b);
    assert once.remaining == twice.remaining;
    assert "Filled" != "Empty" && "Filled" != "PartiallyFilled" && "PartiallyFilled" != "Empty" by {
      assert |"Filled"| == 6 && |"Empty"| == 5 && |"PartiallyFilled"| == 15;
    }
  }

  // ---- What a stream leaves of a row ----

  /** All that `legs` take from the order `k`. */
  function Taken(legs: seq<Leg>, k: Key): int {
    if legs == [] then 0
    else Taken(legs[..|legs| - 1], k) + if legs[|legs| - 1].key == k then legs[|legs| - 1].quantity else 0
  }

  predicate Touched(legs: seq<Leg>, k: Key) {
    exists l :: l in legs && l.key == k
  }

  /** `row'` is `row` less `taken`, with its status as it has to be: untouched rows keep theirs, a row with nothing
      left is filled, and an empty one with something left is partially filled. */
  predicate RowAfter(row: Row, touched: bool, taken: int, row': Row) {
    && row'.remaining == row.remaining - taken
    && (!touched ==> row'.status == row.status)
    && (touched && row.remaining - taken <= 0 ==> row'.status == "Filled")
    && (touched && row.remaining - taken > 0 && row.status == "Empty" ==> row'.status == "PartiallyFilled")
    && (touched && row.remaining - taken > 0 && row.status != "Empty" ==> row'.status == row.status)
  }

  lemma {:induction false} DeltasAreTaken(legs: seq<Leg>, k: Key)
    ensures k in Deltas(legs) <==> Touched(legs, k)
    ensures Taken(legs, k) == if k in Deltas(legs) then Deltas(legs)[k] else 0
    decreases legs
  {
    if legs != [] {
      var before, last := legs[..|legs| - 1], legs[|legs| - 1];
      DeltasAreTaken(before, k);
      assert legs == before + [last];
      assert Touched(legs, k) <==> Touched(before, k) || last.key == k;
    }
  }

  /** A batch, with legs of any sign, takes from each row all its legs together, and leaves the status that
      what is left calls for. */
  lemma {:induction false} BatchRows(rows: map<Key, Row>, legs: seq<Leg>)
    ensures var rows' := Updated(rows, Deltas(legs));
            && rows'.Keys == rows.Keys
            && forall k :: k in rows ==> RowAfter(rows[k], Touched(legs, k), Taken(legs, k), rows'[k])
  {
    hide Deltas, Taken, Touched;
    forall k | k in rows
      ensures RowAfter(rows[k], Touched(legs, k), Taken(legs, k), Updated(rows, Deltas(legs))[k])
    {
      DeltasAreTaken(legs, k);
    }
  }

  /** So does any stream of non-negative legs, taken one at a time. */
  lemma {:induction false} StreamRows(rows: map<Key, Row>, legs: seq<Leg>)
    requires NonNegative(legs)
    ensures var rows' := ApplyLegs(rows, legs);
            && rows'.Keys == rows.Keys
            && forall k :: k in rows ==> RowAfter(rows[k], Touched(legs, k), Taken(legs, k), rows'[k])
  {
    hide *;
    BatchRows(rows, legs);
    BatchIsOneByOne(rows, legs);
  }

  // ---- What a stream of fills takes ----

  predicate Names(f: Fill, k: Key) {
    f.pair == k.pair && (f.bidOrder == k.id || f.askOrder == k.id)
  }

  /** The bid's quantity from the bid's order, the ask's from the ask's, both under the fill's pair. */
  function TakenByFills(fills: seq<Fill>, k: Key): int {
    if fills == [] then 0
    else
      var f := fills[|fills| - 1];
      TakenByFills(fills[..|fills| - 1], k)
      + (if f.pair == k.pair && f.bidOrder == k.id then f.bidQuantity else 0)
      + (if f.pair == k.pair && f.askOrder == k.id then f.askQuantity else 0)
  }

  lemma {:induction false} TakenSnoc(legs: seq<Leg>, l: Leg, k: Key)
    ensures Taken(legs + [l], k) == Taken(legs, k) + if l.key == k then l.quantity else 0
    ensures Touched(legs + [l], k) <==> Touched(legs, k) || l.key == k
  {
    assert (legs + [l])[..|legs|] == legs;
    assert l in legs + [l];
  }

  lemma {:induction false} FillsTake(fills: seq<Fill>, k: Key)
    ensures Taken(Legs(fills), k) == TakenByFills(fills, k)
    ensures Touched(Legs(fills), k) <==> exists f :: f in fills && Names(f, k)
    decreases fills
  {
    hide Legs, Taken, Touched;
    if fills == [] {
      NoLegs(k);
    } else {
      var before, f := fills[..|fills| - 1], fills[|fills| - 1];
      assert fills == before + [f];
      FillsTake(before, k);
      LegsAppend(before, f);
      var bid, ask := Leg(Key(f.bidOrder, f.pair), f.bidQuantity), Leg(Key(f.askOrder, f.pair), f.askQuantity);
      TakenSnoc(Legs(before), bid, k);
      TakenSnoc(Legs(before) + [bid], ask, k);
      assert Names(f, k) <==> bid.key == k || ask.key == k;
    }
  }

  lemma {:induction false} NoLegs(k: Key)
    ensures Legs([]) == [] && Taken([], k) == 0 && !Touched([], k)
  {
  }

  /** What the fills of `fills` leave of every row. */
  ghost predicate RowsAfter(rows: map<Key, Row>, fills: seq<Fill>, rows': map<Key, Row>) {
    && rows'.Keys == rows.Keys
    && forall k :: k in rows ==>
         RowAfter(rows[k], exists f :: f in fills && Names(f, k), TakenByFills(fills, k), rows'[k])
  }

  lemma {:induction false} BatchTakes(rows: map<Key, Row>, fills: seq<Fill>)
    ensures RowsAfter(rows, fills, Updated(rows, Deltas(Legs(fills))))
  {
    hide Updated, Deltas, Legs, Taken, Touched, TakenByFills, RowAfter, Names;
    BatchRows(rows, Legs(fills));
    forall k | k in rows
      ensures RowAfter(rows[k], exists f :: f in fills && Names(f, k), TakenByFills(fills, k),
                       Updated(rows, Deltas(Legs(fills)))[k])
    {
      FillsTake(fills, k);
    }
  }

  lemma {:induction false} DeltasNonNegative(legs: seq<Leg>)
    requires NonNegative(legs)
    ensures forall k :: k in Deltas(legs) ==> Deltas(legs)[k] >= 0
    decreases legs
  {
    if legs != [] {
      DeltasNonNegative(legs[..|legs| - 1]);
    }
  }

  lemma {:induction false} UpdatedOneMore(rows: map<Key, Row>, deltas: map<Key, int>, leg: Leg)
    requires leg.quantity >= 0 && forall k :: k in deltas ==> deltas[k] >= 0
    ensures Updated(rows, Counted(deltas, leg)) == ApplyLeg(Updated(rows, deltas), leg)
  {
    hide Reduced;
    var k := leg.key;
    if k in rows && k in deltas {
      ReducedTwice(rows[k], deltas[k], leg.quantity);
    }
  }

  /** One aggregated update gives every row what the fills give it one at a time. */
  lemma {:induction false} BatchIsOneByOne(rows: map<Key, Row>, legs: seq<Leg>)
    requires NonNegative(legs)
    ensures Updated(rows, Deltas(legs)) == ApplyLegs(rows, legs)
    decreases legs
  {
    if legs == [] {
      assert Updated(rows, map[]) == rows;
    } else {
      var before := legs[..|legs| - 1];
      BatchIsOneByOne(rows, before);
      DeltasNonNegative(before);
      UpdatedOneMore(rows, Deltas(before), legs[|legs| - 1]);
    }
  }

  lemma {:induction false} ApplyLegsAppend(rows: map<Key, Row>, a: seq<Leg>, b: seq<Leg>)
    ensures ApplyLegs(rows, a + b) == ApplyLegs(ApplyLegs(rows, a), b)
    decreases b
  {
    if b == [] {
      assert a + b == a;
    } else {
      assert (a + b)[..|a + b| - 1] == a + b[..|b| - 1];
      ApplyLegsAppend(rows, a, b[..|b| - 1]);
    }
  }

  /** However the stream is cut into batches. */
  lemma {:induction false} AnyBatches(rows: map<Key, Row>, batches: seq<seq<Leg>>)
    requires NonNegative(Flat(batches))
    ensures UpdatedAll(rows, batches) == ApplyLegs(rows, Flat(batches))
    decreases batches
  {
    if batches != [] {
      assert forall l :: l in batches[0] || l in Flat(batches[1..]) ==> l in Flat(batches);
      BatchIsOneByOne(rows, batches[0]);
      ApplyLegsAppend(rows, batches[0], Flat(batches[1..]));
      AnyBatches(Updated(rows, Deltas(batches[0])), batches[1..]);
    }
  }

  // ---- In any order ----

  lemma {:induction false} CountedCommutes(deltas: map<Key, int>, x: Leg, y: Leg)
    ensures Counted(Counted(deltas, x), y) == Counted(Counted(deltas, y), x)
  {
  }

  lemma {:induction false} DeltasPulled(a: seq<Leg>, x: Leg, b: seq<Leg>)
    ensures Deltas(a + [x] + b) == Counted(Deltas(a + b), x)
    decreases b
  {
    hide Counted;
    var all := a + [x] + b;
    if b == [] {
      assert all[..|all| - 1] == a == a + b;
    } else {
      var y := b[|b| - 1];
      assert all[..|all| - 1] == a + [x] + b[..|b| - 1];
      assert (a + b)[..|a + b| - 1] == a + b[..|b| - 1];
      DeltasPulled(a, x, b[..|b| - 1]);
      CountedCommutes(Deltas(a + b[..|b| - 1]), x, y);
    }
  }

  lemma {:induction false} DeltasAnyOrder(a: seq<Leg>, b: seq<Leg>)
    requires multiset(a) == multiset(b)
    ensures Deltas(a) == Deltas(b)
    decreases a
  {
    hide Counted, Deltas;
    if a == [] {
      assert |b| == |multiset(b)| == 0;
    } else {
      var x, before := a[|a| - 1], a[..|a| - 1];
      assert a == before + [x];
      assert x in multiset(b);
      var i :| 0 <= i < |b| && b[i] == x;
      var front, back := b[..i], b[i + 1..];
      assert b == front + [x] + back;
      SameButOne(before, x, front, back);
      assert before + [x] + [] == a && before + [] == before;
      DeltasPulled(before, x, []);
      DeltasPulled(front, x, back);
      DeltasAnyOrder(before, front + back);
    }
  }

  lemma {:induction false} SameButOne(before: seq<Leg>, x: Leg, front: seq<Leg>, back: seq<Leg>)
    requires multiset(before + [x]) == multiset(front + [x] + back)
    ensures multiset(before) == multiset(front + back)
  {
    assert multiset(before) == multiset(before + [x]) - multiset{x};
    assert multiset(front + back) == multiset(front + [x] + back) - multiset{x};
  }

  /** The order in which non-negative fills arrive does not matter either. */
  lemma {:induction false} AnyOrder(rows: map<Key, Row>, a: seq<Leg>, b: seq<Leg>)
    requires NonNegative(a) && multiset(a) == multiset(b)
    ensures ApplyLegs(rows, a) == ApplyLegs(rows, b)
  {
    hide ApplyLegs, Deltas;
    forall l | l in b
      ensures l in a
    {
      assert l in multiset(b) && multiset(b) == multiset(a);
    }
    DeltasAnyOrder(a, b);
    BatchIsOneByOne(rows, a);
    BatchIsOneByOne(rows, b);
  }

  // ---- The database ----

  class Store {
    var orders: map<Key, Row>

    constructor (orders: map<Key, Row>)
      ensures this.orders == orders
    {
      this.orders := orders;
    }

    /** Aggregates the batch per order, then updates each order once. */
    method UpdateOrdersBatch(fills: seq<Fill>)
      modifies this
      ensures orders == Updated(old(orders), Deltas(Legs(fills)))
      ensures RowsAfter(old(orders), fills, orders)
      ensures NonNegative(Legs(fills)) ==> orders == ApplyLegs(old(orders), Legs(fills))
    {
      hide Counted, Updated, ApplyLegs, Legs, RowsAfter;
      var deltas: map<Key, int> := map[];
      assert Legs(fills[..0]) == [];
      for i := 0 to |fills|
        invariant deltas == Deltas(Legs(fills[..i])) && orders == old(orders)
      {
        var f := fills[i];
        assert fills[..i + 1] == fills[..i] + [f];
        LegsAppend(fills[..i], f);
        var bid, ask := Leg(Key(f.bidOrder, f.pair), f.bidQuantity), Leg(Key(f.askOrder, f.pair), f.askQuantity);
        DeltasSnoc(Legs(fills[..i]), bid);
        DeltasSnoc(Legs(fills[..i]) + [bid], ask);
        deltas := Counted(deltas, bid);
        deltas := Counted(deltas, ask);
      }
      assert fills[..|fills|] == fills;
      BatchTakes(orders, fills);
      orders := Updated(orders, deltas);
      if NonNegative(Legs(fills)) {
        BatchIsOneByOne(old(orders), Legs(fills));
      }
    }
  }

  lemma {:induction false} DeltasSnoc(legs: seq<Leg>, l: Leg)
    ensures Deltas(legs + [l]) == Counted(Deltas(legs), l)
  {
    assert (legs + [l])[..|legs|] == legs;
  }

  // ---- The live registry ----

  datatype LiveOrder = LiveOrder(pair: string, row: Row)

  class Registry {
    var states: map<Id, LiveOrder>

    constructor ()
      ensures states == map[]
    {
      states := map[];
    }

    method Put(id: Id, s: LiveOrder)
      modifies this
      ensures states == old(states)[id := s]
    {
      states := states[id := s];
    }

    method Delete(id: Id)
      modifies this
      ensures states == old(states) - {id}
    {
      states := states - {id};
    }

    /** Counts a fill off a tracked order. */
    method ApplyFill(id: Id, quantity: int) returns (r: Option<LiveOrder>)
      modifies this
      ensures r.Some? <==> id in old(states)
      ensures states == Tracked(old(states), id, quantity)
      ensures r.Some? ==> r.value == states[id] && RowAfter(old(states)[id].row, true, quantity, states[id].row)
                          && states == old(states)[id := LiveOrder(old(states)[id].pair, states[id].row)]
    {
      if id !in states {
        return None;
      }
      var s := states[id];
      var row := s.row.(remaining := s.row.remaining - quantity);
      if row.remaining <= 0 {
        row := row.(status := "Filled");
      } else if row.status == "Empty" {
        row := row.(status := "PartiallyFilled");
      }
      states := states[id := s.(row := row)];
      r := Some(s.(row := row));
    }
  }

  function Tracked(states: map<Id, LiveOrder>, id: Id, quantity: int): map<Id, LiveOrder> {
    if id in states then states[id := states[id].(row := Reduced(states[id].row, quantity))] else states
  }

  function TrackedAll(states: map<Id, LiveOrder>, legs: seq<Leg>): map<Id, LiveOrder> {
    if legs == [] then states
    else
      var l := legs[|legs| - 1]; Tracked(TrackedAll(states, legs[..|legs| - 1]), l.key.id, l.quantity)
  }

  /** Every tracked order has its row, with the same remaining quantity and status. */
  predicate Agree(states: map<Id, LiveOrder>, rows: map<Key, Row>) {
    forall id :: id in states ==> Key(id, states[id].pair) in rows && rows[Key(id, states[id].pair)] == states[id].row
  }

  /** A fill names a tracked order under its own pair. */
  predicate OwnPair(states: map<Id, LiveOrder>, legs: seq<Leg>) {
    forall l :: l in legs && l.key.id in states ==> l.key.pair == states[l.key.id].pair
  }

  lemma {:induction false} AgreeOneByOne(states: map<Id, LiveOrder>, rows: map<Key, Row>, legs: seq<Leg>)
    requires Agree(states, rows) && OwnPair(states, legs)
    ensures Agree(TrackedAll(states, legs), ApplyLegs(rows, legs))
    ensures TrackedAll(states, legs).Keys == states.Keys
    ensures forall id :: id in states ==> TrackedAll(states, legs)[id].pair == states[id].pair
    decreases legs
  {
    if legs != [] {
      AgreeOneByOne(states, rows, legs[..|legs| - 1]);
    }
  }

  /** The registry, told of each fill as it lands, and the database, updated in batches cut anywhere, agree on
      every tracked order once both have seen the stream. */
  lemma {:induction false} RegistryAgreesWithBatches(states: map<Id, LiveOrder>, rows: map<Key, Row>,
                                                     batches: seq<seq<Leg>>)
    requires Agree(states, rows) && OwnPair(states, Flat(batches)) && NonNegative(Flat(batches))
    ensures Agree(TrackedAll(states, Flat(batches)), UpdatedAll(rows, batches))
  {
    AgreeOneByOne(states, rows, Flat(batches));
    AnyBatches(rows, batches);
  }

  /** What the registry makes of a tracked order over a whole stream. */
  lemma {:induction false} RegistryRows(states: map<Id, LiveOrder>, legs: seq<Leg>)
    requires OwnPair(states, legs) && NonNegative(legs)
    ensures TrackedAll(states, legs).Keys == states.Keys
    ensures forall id :: id in states ==>
              var k := Key(id, states[id].pair);
              RowAfter(states[id].row, Touched(legs, k), Taken(legs, k), TrackedAll(states, legs)[id].row)
  {
    hide TrackedAll, ApplyLegs, Taken, Touched, RowAfter, NonNegative, OwnPair;
    var rows := map id | id in states :: Key(id, states[id].pair) := states[id].row;
    AgreeOneByOne(states, rows, legs);
    StreamRows(rows, legs);
  }
}
