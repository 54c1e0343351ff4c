/** What every book operation keeps, and what an order placed in a book gets. */
module BookLaws {
  import opened Types
  import opened Levels
  import opened Matching
  import opened Soundness
  import opened Greedy
  import opened Crossing
  import opened OrderBooks

  lemma {:induction false} SidesOf(b: Book, side: Side)
    ensures b.Orders() == Pool(b.Side(side)) + Pool(b.Side(side.Opposite()))
  {
  }

  // ---- Placing an order ----

  lemma {:induction false} NewIsApart(b: Book, o: Order)
    requires b.Valid() && o.id !in b.index
    ensures forall x :: x in b.Orders() ==> x.id != o.id
    ensures UniqueIds(b.Orders() + {o})
    ensures Ids(b.Orders() + {o}) == b.index.Keys + {o.id}
  {
    assert forall x :: x in b.Orders() ==> x.id in Ids(b.Orders());
  }

  lemma {:induction false} JoinsQueue(o: Order, q: Queue)
    requires QueueOk(o.side, o.price, q) && o.remaining > 0 && forall x :: x in q ==> x.id != o.id
    ensures QueueOk(o.side, o.price, q + [o])
  {
  }

  lemma {:induction false} EnterOk(b: Book, o: Order)
    requires b.Valid() && o.id !in b.index && o.remaining > 0
    ensures SidesOk(o.side, Enter(o, b.Side(o.side)), b.Side(o.side.Opposite()), {})
    ensures Pool(Enter(o, b.Side(o.side))) + Pool(b.Side(o.side.Opposite())) + {} == b.Orders() + {o}
  {
    hide LevelsOk, Pool, Enter, UniqueIds, At;
    var same := b.Side(o.side);
    SidesOf(b, o.side);
    EnterPool(o, same);
    NewIsApart(b, o);
    EnterLevels(o, same);
    assert Pool(Enter(o, same)) + Pool(b.Side(o.side.Opposite())) + {} == b.Orders() + {o};
  }

  lemma {:induction false} EnterLevels(o: Order, same: LevelMap)
    requires LevelsOk(o.side, same) && o.remaining > 0 && forall x :: x in Pool(same) ==> x.id != o.id
    ensures LevelsOk(o.side, Enter(o, same))
  {
    hide Distinct;
    var q := At(same, o.price);
    assert forall x :: x in q ==> x in Pool(same);
    assert QueueOk(o.side, o.price, q) by {
      if q == [] { EmptyQueueOk(o.side, o.price); }
    }
    JoinsQueue(o, q);
  }

  lemma {:induction false} EmptyQueueOk(side: Side, p: Price)
    ensures QueueOk(side, p, [])
  {
  }

  /** The index still agrees with every order a legal run leaves. */
  lemma {:induction false} FixedFieldsKept(live: set<Order>, ms: seq<Match>, index: map<OrderId, Order>)
    requires LegalRun(live, ms) && forall o :: o in live && o.id in index ==> index[o.id].Fixed() == o.Fixed()
    ensures forall o :: o in After(live, ms) && o.id in index ==> index[o.id].Fixed() == o.Fixed()
  {
    forall o | o in After(live, ms) && o.id in index
      ensures index[o.id].Fixed() == o.Fixed()
    {
      var was := RunOnlyShrinks(live, ms, o);
      SameTaker(was, o);
    }
  }

  /** What becomes of the live orders when `o` is placed: the matches are a legal run from the resting
      orders and `o` to the orders then resting, plus what is discarded of an order that never rests. */
  ghost predicate PlacedSoundly(b: Book, o: Order, b': Book, ms: seq<Match>, discarded: set<Order>) {
    && LegalRun(b.Orders() + {o}, ms)
    && After(b.Orders() + {o}, ms) == b'.Orders() + discarded
    && (forall x :: x in discarded ==> x.Fixed() == o.Fixed() && x.remaining > 0)
    && (o.kind.Rests() ==> discarded == {})
    && b'.Valid()
  }

  /** The representation after a legal run that starts from orders the index knows. */
  lemma {:induction false} ValidAfter(b': Book, live: set<Order>, ms: seq<Match>, index: map<OrderId, Order>)
    requires LevelsOk(Buy, b'.bids) && LevelsOk(Sell, b'.asks)
    requires UniqueIds(live) && LegalRun(live, ms) && After(live, ms) == b'.Orders()
    requires index.Keys == Ids(live) && forall o :: o in live ==> index[o.id].Fixed() == o.Fixed()
    requires b'.index == index - FilledIds(ms)
    ensures b'.Valid()
  {
    hide LegalRun, After, LevelsOk, FilledIds, Book.Orders;
    RunKeepsUnique(live, ms);
    assert forall o :: o in live ==> o.id in Ids(live);
    FixedFieldsKept(live, ms, index);
    assert forall o :: o in b'.Orders() ==> o.id in Ids(b'.Orders());
  }

  /** The same when the order `id` is not in the index; `own` is what the run leaves of it. */
  lemma {:induction false} ValidAfterSweep(b': Book, live: set<Order>, ms: seq<Match>, index: map<OrderId, Order>,
                                           own: set<Order>, id: OrderId)
    requires LevelsOk(Buy, b'.bids) && LevelsOk(Sell, b'.asks)
    requires UniqueIds(live) && LegalRun(live, ms) && After(live, ms) == b'.Orders() + own
    requires Ids(live) == index.Keys + {id} && id !in index
    requires forall o :: o in live && o.id in index ==> index[o.id].Fixed() == o.Fixed()
    requires (forall x :: x in own ==> x.id == id) && (forall x :: x in b'.Orders() ==> x.id != id)
    requires b'.index == index - FilledIds(ms)
    ensures b'.Valid()
  {
    hide LegalRun, After, LevelsOk, FilledIds, Book.Orders;
    RunKeepsUnique(live, ms);
    FixedFieldsKept(live, ms, index);
    IndexWithout(index.Keys, FilledIds(ms), b'.Orders(), own, id);
    assert forall o :: o in b'.Orders() ==> o.id in Ids(b'.Orders());
  }

  lemma {:induction false} IndexKnows(b: Book, o: Order)
    requires b.Valid() && o.id !in b.index
    ensures forall x :: x in b.Orders() + {o} && x.id in b.index ==> b.index[x.id].Fixed() == x.Fixed()
    ensures forall x :: x in b.Orders() + {o} ==>
              x.id in b.index[o.id := o] && b.index[o.id := o][x.id].Fixed() == x.Fixed()
  {
    NewIsApart(b, o);
    assert forall x :: x in b.Orders() ==> x.id in Ids(b.Orders());
  }

  lemma {:induction false} EnterSound(b: Book, o: Order)
    requires b.Valid() && o.id !in b.index && o.remaining > 0
    ensures var (b', ms) := EnterBook(b, o); PlacedSoundly(b, o, b', ms, {})
  {
    hide Clear, LegalRun, After, FilledIds, UniqueIds, LevelsOk, Pool, Ids;
    var (b', ms) := EnterBook(b, o);
    EnterOk(b, o);
    ClearSound(o.side, Enter(o, b.Side(o.side)), b.Side(o.side.Opposite()), {});
    SidesOf(b', o.side);
    assert b'.Orders() + {} == b'.Orders();
    NewIsApart(b, o);
    IndexKnows(b, o);
    ValidAfter(b', b.Orders() + {o}, ms, b.index[o.id := o]);
  }

  lemma {:induction false} SweepBookSound(b: Book, o: Order)
    requires b.Valid() && o.id !in b.index && o.remaining > 0 && !o.kind.Rests()
    ensures var (b', ms) := SweepBook(b, o);
            PlacedSoundly(b, o, b', ms, Kept(Sweep(o, b.Side(o.side.Opposite())).taker))
  {
    hide Sweep, LegalRun, After, FilledIds, UniqueIds, LevelsOk;
    var (b', ms) := SweepBook(b, o);
    var w := Sweep(o, b.Side(o.side.Opposite()));
    SweepRun(b, o);
    SameTaker(w.taker, o);
    NewIsApart(b, o);
    IndexKnows(b, o);
    OppositeNotNew(b, o);
    ValidAfterSweep(b', b.Orders() + {o}, ms, b.index, Kept(w.taker), o.id);
  }

  lemma {:induction false} SweepRun(b: Book, o: Order)
    requires b.Valid() && o.id !in b.index && o.remaining > 0
    ensures var (b', ms) := SweepBook(b, o);
            var w := Sweep(o, b.Side(o.side.Opposite()));
            && LegalRun(b.Orders() + {o}, ms)
            && After(b.Orders() + {o}, ms) == b'.Orders() + Kept(w.taker)
            && LevelsOk(Buy, b'.bids) && LevelsOk(Sell, b'.asks)
            && w.taker.Fixed() == o.Fixed()
  {
    hide Sweep, LegalRun, After, FilledIds, QueueOk, LevelsOk, Pool, UniqueIds, Ids;
    var same, opp := b.Side(o.side), b.Side(o.side.Opposite());
    SidesOf(b, o.side);
    SidesOf(SweepBook(b, o).0, o.side);
    NewIsApart(b, o);
    SidesApart(o.side, same, opp);
    assert Kept(o) + Pool(opp) + Pool(same) == b.Orders() + {o};
    SweepSound(o, opp, Pool(same));
  }

  lemma {:induction false} OppositeNotNew(b: Book, o: Order)
    requires b.Valid() && o.id !in b.index
    ensures forall x :: x in SweepBook(b, o).0.Orders() ==> x.id != o.id
  {
    var opp := b.Side(o.side.Opposite());
    NewIsApart(b, o);
    SidesOf(b, o.side);
    SidesOf(SweepBook(b, o).0, o.side);
    SweepTraces(o, opp);
    forall x | x in Pool(Sweep(o, opp).levels)
      ensures x.id != o.id
    {
      var y :| y in Pool(opp) && y.Fixed() == x.Fixed();
      SameTaker(y, x);
    }
  }

  lemma {:induction false} IndexWithout(keys: set<OrderId>, filled: set<OrderId>, orders: set<Order>, own: set<Order>,
                                        id: OrderId)
    requires Ids(orders + own) == keys + {id} - filled && id !in keys
    requires (forall x :: x in own ==> x.id == id) && (forall x :: x in orders ==> x.id != id)
    ensures keys - filled == Ids(orders)
  {
    forall i | i in keys - filled
      ensures i in Ids(orders)
    {
      assert i in Ids(orders + own);
    }
    forall i | i in Ids(orders)
      ensures i in keys - filled
    {
      assert i in Ids(orders + own);
    }
  }

  /** Placing any order: `None` changes nothing, and otherwise every change is accounted for by a legal run
      of matches; the representation is kept either way. */
  lemma {:induction false} AddSound(b: Book, o: Order) returns (discarded: set<Order>)
    requires b.Valid() && o.remaining > 0
    ensures var (b', r) := Add(b, o);
            && b'.Valid()
            && (r == None ==> b' == b && discarded == {})
            && (r.Some? ==> o.id !in b.index && PlacedSoundly(b, o, b', r.value, discarded))
            && (o.kind.FillOrKill? ==> discarded == {})
            && (o.id !in b.index && !o.kind.Rests() ==> forall x :: x in b'.Orders() ==> x.id != o.id)
  {
    discarded := {};
    if o.id !in b.index && !o.kind.Rests() {
      NewIsApart(b, o);
      OppositeNotNew(b, o);
    }
    if Add(b, o).1.Some? {
      if o.kind.Rests() {
        EnterSound(b, o);
      } else {
        SweepBookSound(b, o);
        discarded := Kept(Sweep(o, b.Side(o.side.Opposite())).taker);
        FillsWhole(o, b.Side(o.side.Opposite()));
      }
    }
  }

  /** The index holds every resting order as it was entered, whatever fills have done to it since. */
  lemma {:induction false} IndexAsEntered(b: Book, o: Order)
    ensures var b' := Add(b, o).0;
            && b'.index.Keys <= b.index.Keys + {o.id}
            && (forall id :: id in b'.index ==> b'.index[id] == if id in b.index then b.index[id] else o)
  {
    hide Sweep, Clear, FilledIds;
  }

  /** No trade of a legal run pairs a user with itself, every price is inside both limits, and the quantity is
      the smaller remainder. */
  lemma {:induction false} EveryMatchLegal(live: set<Order>, ms: seq<Match>, i: nat)
    requires LegalRun(live, ms) && i < |ms|
    ensures LegalMatch(ms[i])
    decreases ms
  {
    if i > 0 {
      EveryMatchLegal(Step(live, ms[0]), ms[1..], i - 1);
    }
  }

  // ---- Who is matched ----

  function OppositeOf(b: Book, o: Order): LevelMap {
    b.Side(o.side.Opposite())
  }

  /** FAK and FOK on any book: the matches are the reference fold's, or the book is untouched. FOK is filled
      whole or not at all, and is filled exactly when other users' crossing orders suffice. */
  lemma {:induction false} TakerLaw(b: Book, o: Order)
    requires o.id !in b.index && o.remaining > 0 && !o.kind.Rests()
    ensures var (b', r) := Add(b, o);
            var c := Candidates(o, OppositeOf(b, o));
            && (r.Some? ==> r.value == Fold(o, c))
            && (r == None ==> b' == b)
            && (o.kind.FillOrKill? ==> (r.Some? <==> Sum(c) >= o.remaining))
            && (o.kind.FillAndKill? ==>
                  (r.Some? <==>
                     exists p :: p in OppositeOf(b, o) && if o.side.Buy? then p <= o.price else p >= o.price))
            && (r.Some? ==> (FoldTaker(o, c).remaining == 0 <==> Sum(c) >= o.remaining))
  {
    hide Sweep, Candidates, Fold, FoldTaker, Sum;
    SweepIsFold(o, OppositeOf(b, o));
    FoldLeaves(o, Candidates(o, OppositeOf(b, o)));
    MatchableIff(b, o);
    if o.kind.FillOrKill? && !CanMatch(b, o.side, o.price) {
      NoneToTake(o, OppositeOf(b, o));
    }
  }

  lemma {:induction false} MatchableIff(b: Book, o: Order)
    ensures CanMatch(b, o.side, o.price)
       <==> exists p :: p in OppositeOf(b, o) && if o.side.Buy? then p <= o.price else p >= o.price
  {
    if p :| p in OppositeOf(b, o) && if o.side.Buy? then p <= o.price else p >= o.price {
      assert OppositeOf(b, o) != map[];
    }
  }

  lemma {:induction false} NoneToTake(o: Order, m: LevelMap)
    requires m == map[] || !Crosses(o.side, o.price, Best(o.side.Opposite(), m))
    ensures Sum(Candidates(o, m)) == 0
  {
  }

  /** What a taker that never rests leaves of every opposite level: the old queue less what was traded,
      filled orders gone; only its user's own orders may have been sent to the back. The other side is untouched. */
  lemma {:induction false} TakerLeaves(b: Book, o: Order, p: Price)
    requires b.Valid() && o.id !in b.index && o.remaining > 0 && p in OppositeOf(b, o)
    ensures var (b', ms) := SweepBook(b, o);
            && IsRotation(At(OppositeOf(b', o), p), Remains(OppositeOf(b, o)[p], ms), o.user)
            && b'.Side(o.side) == b.Side(o.side)
  {
    NewIsApart(b, o);
    SidesOf(b, o.side);
    TakerApart(o, OppositeOf(b, o));
    SweepRemains(o, OppositeOf(b, o), [], p);
    assert [] + Sweep(o, OppositeOf(b, o)).matches == Sweep(o, OppositeOf(b, o)).matches;
  }

  /** The book's only crossings are between orders of one user. */
  ghost predicate OnlySelf(b: Book) {
    OnlySelfCrossed(Buy, Pool(b.bids), Pool(b.asks))
  }

  ghost predicate Uncrossed(b: Book) {
    forall x, y :: x in Pool(b.bids) && y in Pool(b.asks) ==> x.price < y.price
  }

  lemma {:induction false} OnlySelfEither(b: Book, side: Side)
    ensures OnlySelf(b) <==> OnlySelfCrossed(side, Pool(b.Side(side)), Pool(b.Side(side.Opposite())))
  {
  }

  /** A resting order in a book crossed by one user's own orders at most: it gets exactly the reference
      fold's matches, and leaves the book such, if and only if it is not blocked by a strictly better order
      on its own side; a blocked order trades nothing. */
  lemma {:induction false} RestingLaw(b: Book, o: Order)
    requires b.Valid() && o.id !in b.index && o.remaining > 0 && o.kind.Rests() && OnlySelf(b)
    ensures var (b', r) := Add(b, o);
            && r.Some?
            && (r.value == Fold(o, Candidates(o, OppositeOf(b, o))) <==> !Blocked(o, b.Side(o.side), OppositeOf(b, o)))
            && (OnlySelf(b') <==> !Blocked(o, b.Side(o.side), OppositeOf(b, o)))
            && (Blocked(o, b.Side(o.side), OppositeOf(b, o)) ==> r.value == [])
  {
    hide Clear;
    EnterOk(b, o);
    OnlySelfEither(b, o.side);
    OnlySelfEither(Add(b, o).0, o.side);
    NewOrderIsFold(o, b.Side(o.side), OppositeOf(b, o));
  }

  /** Every order an operation leaves was live before. */
  ghost predicate Traced(os: set<Order>, os': set<Order>) {
    forall x :: x in os' ==> exists y :: y in os && y.Fixed() == x.Fixed()
  }

  ghost predicate OnlySelfIn(os: set<Order>) {
    forall x, y :: x in os && y in os && x.side == Buy && y.side == Sell && x.price >= y.price ==> x.user == y.user
  }

  ghost predicate UncrossedIn(os: set<Order>) {
    forall x, y :: x in os && y in os && x.side == Buy && y.side == Sell ==> x.price < y.price
  }

  lemma {:induction false} BySide(b: Book)
    requires LevelsOk(Buy, b.bids) && LevelsOk(Sell, b.asks)
    ensures OnlySelf(b) <==> OnlySelfIn(b.Orders())
    ensures Uncrossed(b) <==> UncrossedIn(b.Orders())
  {
    hide Distinct;
    assert forall x :: x in Pool(b.bids) <==> x in b.Orders() && x.side == Buy;
    assert forall y :: y in Pool(b.asks) <==> y in b.Orders() && y.side == Sell;
  }

  lemma {:induction false} TracedOnlySelf(os: set<Order>, os': set<Order>)
    requires Traced(os, os') && OnlySelfIn(os)
    ensures OnlySelfIn(os')
  {
    forall x, y | x in os' && y in os' && x.side == Buy && y.side == Sell && x.price >= y.price
      ensures x.user == y.user
    {
      var x0 :| x0 in os && x0.Fixed() == x.Fixed();
      var y0 :| y0 in os && y0.Fixed() == y.Fixed();
      SameTaker(x0, x);
      SameTaker(y0, y);
    }
  }

  lemma {:induction false} RunTraced(live: set<Order>, ms: seq<Match>)
    requires LegalRun(live, ms)
    ensures Traced(live, After(live, ms))
  {
    forall x | x in After(live, ms)
      ensures exists y :: y in live && y.Fixed() == x.Fixed()
    {
      var y := RunOnlyShrinks(live, ms, x);
    }
  }

  /** An order that never rests leaves, of the orders there were, some with less remaining. */
  lemma {:induction false} TakerTraced(b: Book, o: Order)
    requires b.Valid() && o.remaining > 0 && !o.kind.Rests()
    ensures Traced(b.Orders(), Add(b, o).0.Orders())
  {
    hide Sweep, Sum, Candidates, QueueOk;
    if Add(b, o).1.Some? {
      SweepTraces(o, OppositeOf(b, o));
      SweepBookSound(b, o);
      SidesOf(b, o.side);
      SidesOf(Add(b, o).0, o.side);
    }
  }

  /** So it never makes anyone cross. */
  lemma {:induction false} TakerKeepsOnlySelf(b: Book, o: Order)
    requires b.Valid() && o.remaining > 0 && !o.kind.Rests()
    ensures OnlySelf(b) ==> OnlySelf(Add(b, o).0)
    ensures Uncrossed(b) ==> Uncrossed(Add(b, o).0)
  {
    hide Add, Uncrossed, OnlySelf, LevelsOk, UniqueIds, Traced, Ids, Pool;
    var b' := Add(b, o).0;
    var _ := AddSound(b, o);
    TakerTraced(b, o);
    BySide(b);
    BySide(b');
    if OnlySelf(b) {
      TracedOnlySelf(b.Orders(), b'.Orders());
    }
    if Uncrossed(b) {
      TracedUncrossed(b.Orders(), b'.Orders());
    }
  }

  lemma {:induction false} TracedUncrossed(os: set<Order>, os': set<Order>)
    requires Traced(os, os') && UncrossedIn(os)
    ensures UncrossedIn(os')
  {
    forall x, y | x in os' && y in os' && x.side == Buy && y.side == Sell
      ensures x.price < y.price
    {
      var x0 :| x0 in os && x0.Fixed() == x.Fixed();
      var y0 :| y0 in os && y0.Fixed() == y.Fixed();
      SameTaker(x0, x);
      SameTaker(y0, y);
    }
  }

  /** `o` would cross a resting order of its own user. */
  ghost predicate CrossesOwn(b: Book, o: Order) {
    exists x :: x in Pool(OppositeOf(b, o)) && x.user == o.user && Crosses(o.side, o.price, x.price)
  }

  lemma {:induction false} UncrossedNotBlocked(b: Book, o: Order)
    requires b.Valid() && Uncrossed(b)
    ensures !Blocked(o, b.Side(o.side), OppositeOf(b, o)) && OnlySelf(b)
  {
    hide Distinct, UniqueIds, Ids;
    NoPriceCrosses(b, o.side);
  }

  /** From an uncrossed book any resting order gets the reference fold's matches, leaves crossings with its
      owner's orders only, and, unless it crosses one of those, leaves the book uncrossed. */
  lemma {:induction false} UncrossedLaw(b: Book, o: Order)
    requires b.Valid() && o.id !in b.index && o.remaining > 0 && o.kind.Rests() && Uncrossed(b)
    ensures var (b', r) := Add(b, o);
            && r == Some(Fold(o, Candidates(o, OppositeOf(b, o))))
            && OnlySelf(b')
            && (!CrossesOwn(b, o) ==> Uncrossed(b'))
  {
    hide Clear, Candidates, Fold, LegalRun, After, LevelsOk, Blocked;
    var (b', r) := Add(b, o);
    UncrossedNotBlocked(b, o);
    RestingLaw(b, o);
    if !CrossesOwn(b, o) {
      var _ := AddSound(b, o);
      RunTraced(b.Orders() + {o}, r.value);
      BySide(b);
      BySide(b');
      NotOwnCrossing(b, o);
      StaysUncrossed(b.Orders(), o, b'.Orders());
    }
  }

  lemma {:induction false} NotOwnCrossing(b: Book, o: Order)
    requires b.Valid() && !CrossesOwn(b, o)
    ensures forall x :: x in b.Orders() && x.user == o.user && x.side != o.side ==> !Crosses(o.side, o.price, x.price)
  {
    assert forall x :: x in b.Orders() && x.side != o.side ==> x in Pool(OppositeOf(b, o));
  }

  lemma {:induction false} StaysUncrossed(os: set<Order>, o: Order, os': set<Order>)
    requires UncrossedIn(os) && OnlySelfIn(os') && Traced(os + {o}, os')
    requires forall x :: x in os && x.user == o.user && x.side != o.side ==> !Crosses(o.side, o.price, x.price)
    ensures UncrossedIn(os')
  {
    hide UncrossedIn, Traced;
    assert forall x, y :: x in os && y in os && x.side == Buy && y.side == Sell ==> x.price < y.price by {
      UncrossedMeans(os);
    }
    forall x, y | x in os' && y in os' && x.side == Buy && y.side == Sell
      ensures x.price < y.price
    {
      var x0 := TracedFrom(os + {o}, os', x);
      var y0 := TracedFrom(os + {o}, os', y);
      if x.price >= y.price {
        assert x.user == y.user;
        OwnPairApart(os, o, x0, y0);
      }
    }
    UncrossedMeans(os');
  }

  lemma {:induction false} UncrossedMeans(os: set<Order>)
    ensures UncrossedIn(os)
            <==> forall x, y :: x in os && y in os && x.side == Buy && y.side == Sell ==> x.price < y.price
  {
  }

  lemma {:induction false} TracedFrom(os: set<Order>, os': set<Order>, x: Order) returns (was: Order)
    requires Traced(os, os') && x in os'
    ensures was in os && was.side == x.side && was.price == x.price && was.user == x.user
  {
    was :| was in os && was.Fixed() == x.Fixed();
    SameTaker(was, x);
  }

  /** A bid and an ask of one user, at most one of them new, do not cross. */
  lemma {:induction false} OwnPairApart(os: set<Order>, o: Order, bid: Order, ask: Order)
    requires bid in os + {o} && ask in os + {o} && bid.side == Buy && ask.side == Sell && bid.user == ask.user
    requires bid in os && ask in os ==> bid.price < ask.price
    requires forall x :: x in os && x.user == o.user && x.side != o.side ==> !Crosses(o.side, o.price, x.price)
    ensures bid.price < ask.price
  {
  }

  /** A resting order that can trade in an uncrossed book is alone on a new best level. */
  lemma {:induction false} LoneEntry(b: Book, o: Order)
    requires b.Valid() && o.id !in b.index && o.remaining > 0 && Uncrossed(b)
    requires Crossed(o.side, Enter(o, b.Side(o.side)), OppositeOf(b, o))
    ensures LoneOrder(o.side, Enter(o, b.Side(o.side)), OppositeOf(b, o), o)
    ensures o.price !in b.Side(o.side) && Best(o.side, Enter(o, b.Side(o.side))) == o.price
  {
    hide QueueOk, UniqueIds, Ids;
    var same, s := b.Side(o.side), Enter(o, b.Side(o.side));
    EnterOk(b, o);
    NoPriceCrosses(b, o.side);
    assert Best(o.side, s) in s.Keys && s.Keys == same.Keys + {o.price};
    assert Best(o.side, s) == o.price && o.price !in same;
    assert At(same, o.price) == [] && [] + [o] == [o];
    assert s - {o.price} == same;
  }

  /** From an uncrossed book a resting order leaves of the opposite levels what a taker that never rests would.
      If something is left of it, it stands behind all others of its price; nothing else changes on its side. */
  lemma {:induction false} UncrossedLeaves(b: Book, o: Order) returns (left: Order)
    requires b.Valid() && o.id !in b.index && o.remaining > 0 && o.kind.Rests() && Uncrossed(b)
    ensures var (b', ms) := EnterBook(b, o);
            && (forall p :: p in OppositeOf(b, o) ==>
                  IsRotation(At(OppositeOf(b', o), p), Remains(OppositeOf(b, o)[p], ms), o.user))
            && b'.Side(o.side) == (if left.remaining == 0 then b.Side(o.side)
                                   else b.Side(o.side)[o.price := At(b.Side(o.side), o.price) + [left]])
            && OppositeOf(b', o) == Sweep(o, OppositeOf(b, o)).levels
            && left.Fixed() == o.Fixed() && left.remaining + Traded(ms, o.id) == o.remaining
            && (ms == [] ==> left == o)
  {
    hide Clear, Sweep, Fold, FoldTaker, Candidates, LevelsOk, UniqueIds, Book.Valid, Uncrossed, Remains, IsRotation,
      At;
    var opp := OppositeOf(b, o);
    left := Sweep(o, opp).taker;
    var c := Candidates(o, opp);
    EnteredLike(b, o);
    SweepIsFold(o, opp);
    OppositeIds(b, o);
    FoldTakes(o, c);
    NothingFolded(o, c);
    forall p | p in opp
      ensures IsRotation(At(Sweep(o, opp).levels, p), Remains(opp[p], Sweep(o, opp).matches), o.user)
    {
      TakerLeaves(b, o, p);
    }
  }

  lemma {:induction false} NothingFolded(o: Order, c: Queue)
    ensures Fold(o, c) == [] ==> FoldTaker(o, c) == o
  {
  }

  lemma {:induction false} OppositeIds(b: Book, o: Order)
    requires b.Valid() && o.id !in b.index
    ensures forall x :: x in Candidates(o, OppositeOf(b, o)) ==> x.id != o.id
  {
    hide Candidates, UniqueIds, QueueOk;
    NewIsApart(b, o);
    SidesOf(b, o.side);
    CandidateMembers(o, OppositeOf(b, o));
  }

  /** Entering and clearing is sweeping, with what is left of the order behind the others of its price. */
  lemma {:induction false} EnteredLike(b: Book, o: Order)
    requires b.Valid() && o.id !in b.index && o.remaining > 0 && Uncrossed(b)
    ensures var (b', ms) := EnterBook(b, o);
            var w := Sweep(o, OppositeOf(b, o));
            && ms == w.matches && OppositeOf(b', o) == w.levels
            && b'.Side(o.side) == if w.taker.remaining == 0 then b.Side(o.side)
                                  else b.Side(o.side)[o.price := At(b.Side(o.side), o.price) + [w.taker]]
  {
    hide Clear, Sweep, QueueOk, LevelsOk, UniqueIds, Best;
    var same, s := b.Side(o.side), Enter(o, b.Side(o.side));
    if Crossed(o.side, s, OppositeOf(b, o)) {
      LoneEntry(b, o);
      LoneClear(o.side, s, OppositeOf(b, o), o);
      var left := Sweep(o, OppositeOf(b, o)).taker;
      assert At(same, o.price) == [] && [] + [left] == [left];
      assert s - {o.price} == same && s[o.price := [left]] == same[o.price := [left]];
    } else {
      NotCrossedIdle(o, s, OppositeOf(b, o));
    }
  }

  lemma {:induction false} NotCrossedIdle(o: Order, s: LevelMap, opp: LevelMap)
    requires o.price in s && !Crossed(o.side, s, opp)
    ensures Clear(o.side, s, opp) == ClearOut(s, opp, []) && Sweep(o, opp) == SweepOut(o, opp, [])
  {
  }

  lemma {:induction false} NoPriceCrosses(b: Book, side: Side)
    requires b.Valid() && Uncrossed(b)
    ensures forall p, q :: p in b.Side(side) && q in b.Side(side.Opposite()) ==> !Crosses(side, p, q)
  {
    hide Distinct;
    forall p, q | p in b.Side(side) && q in b.Side(side.Opposite())
      ensures !Crosses(side, p, q)
    {
      var x: Order, y: Order := b.Side(side)[p][0], b.Side(side.Opposite())[q][0];
      assert x in b.Side(side)[p] && y in b.Side(side.Opposite())[q];
      assert x in Pool(b.Side(side)) && y in Pool(b.Side(side.Opposite()));
      assert x.price == p && y.price == q;
    }
  }

  // ---- The failing family occurs ----

  lemma {:induction false} BestOfOne(side: Side, p: Price, q: Queue)
    ensures map[p := q] != map[] && Best(side, map[p := q]) == p
  {
    assert p in map[p := q];
  }

  lemma {:induction false} PoolOfOne(p: Price, o: Order)
    ensures Pool(map[p := [o]]) == {o}
  {
    PoolSplit(map[p := [o]], p);
    assert map[p := [o]] - {p} == map[] && Elems([o]) == {o};
  }

  /** A user's ask and the same user's crossing bid both rest: the pair is skipped, not traded. */
  lemma {:induction false} SelfCrossRests(ask: Order, bid: Order)
    requires ask.kind.Rests() && ask.side == Sell && bid.kind.Rests() && bid.side == Buy && ask.id != bid.id
    requires ask.user == bid.user && bid.price >= ask.price
    ensures Add(EMPTY_BOOK, ask).0 == Book(map[], map[ask.price := [ask]], map[ask.id := ask])
    ensures Add(Add(EMPTY_BOOK, ask).0, bid).0
         == Book(map[bid.price := [bid]], map[ask.price := [ask]], map[ask.id := ask, bid.id := bid])
  {
    assert [] + [ask] == [ask] && [] + [bid] == [bid];
    var same, opp := map[bid.price := [bid]], map[ask.price := [ask]];
    BestOfOne(Buy, bid.price, [bid]);
    BestOfOne(Sell, ask.price, [ask]);
    assert Duel(Buy, [bid], [ask], ask.price, 1, 1, 0) == DuelOut([bid], [ask], [], true) by {
      assert [ask][1..] + [ask] == [ask];
    }
    assert Put(same, bid.price, [bid]) == same && opp - {ask.price} == map[];
    assert Clear(Buy, same, map[]) == ClearOut(same, map[], []);
  }

  /** The book they leave is well formed, and crossed by its own user only. */
  lemma {:induction false} SelfCrossValid(ask: Order, bid: Order)
    requires ask.side == Sell && bid.side == Buy && ask.id != bid.id && ask.user == bid.user
    requires ask.remaining > 0 && bid.remaining > 0
    ensures var b := Book(map[bid.price := [bid]], map[ask.price := [ask]], map[ask.id := ask, bid.id := bid]);
            b.Valid() && OnlySelf(b)
  {
    PoolOfOne(bid.price, bid);
    PoolOfOne(ask.price, ask);
  }

  /** User `x` rests an ask at 100 and a bid at 105; the bid of `y` at 103 then trades nothing, though the
      reference fold pairs it with the ask. */
  lemma {:induction false} BlockedHappens(x: UserId, y: UserId)
    requires x != y
    ensures var ask := NewOrder(1, GoodTillCancel, Sell, Empty, 100, 1, x, 0);
            var bid := NewOrder(2, GoodTillCancel, Buy, Empty, 105, 1, x, 0);
            var late := NewOrder(3, GoodTillCancel, Buy, Empty, 103, 1, y, 0);
            var b := Add(Add(EMPTY_BOOK, ask).0, bid).0;
            && b.Valid() && OnlySelf(b) && late.id !in b.index
            && Blocked(late, b.bids, b.asks)
            && Fold(late, Candidates(late, b.asks)) != []
            && Add(b, late).1 == Some([])
  {
    hide Add, Clear, Duel, Sum, Candidates, Fold, Book.Valid, OnlySelf;
    var ask := NewOrder(1, GoodTillCancel, Sell, Empty, 100, 1, x, 0);
    var bid := NewOrder(2, GoodTillCancel, Buy, Empty, 105, 1, x, 0);
    var late := NewOrder(3, GoodTillCancel, Buy, Empty, 103, 1, y, 0);
    SelfCrossRests(ask, bid);
    SelfCrossValid(ask, bid);
    BestOfOne(Buy, 105, [bid]);
    BestOfOne(Sell, 100, [ask]);
    LateCandidates(late, ask);
    RestingLaw(Add(Add(EMPTY_BOOK, ask).0, bid).0, late);
  }

  lemma {:induction false} LateCandidates(late: Order, ask: Order)
    requires late.side == Buy && ask.side == Sell && late.price >= ask.price && late.user != ask.user
    requires late.remaining > 0 && ask.remaining > 0
    ensures Fold(late, Candidates(late, map[ask.price := [ask]])) != []
  {
    BestOfOne(Sell, ask.price, [ask]);
    CandidateMembers(late, map[ask.price := [ask]]);
    assert ask in Candidates(late, map[ask.price := [ask]]);
  }

  // ---- Cancelling ----

  lemma {:induction false} WithoutOk(side: Side, p: Price, q: Queue, id: OrderId)
    requires QueueOk(side, p, q)
    ensures QueueOk(side, p, Without(q, id))
    ensures forall o :: o in Without(q, id) <==> o in q && o.id != id
  {
    if q != [] {
      TailOk(side, p, q);
      WithoutOk(side, p, q[1..], id);
      JoinFront(side, p, q[0], Without(q[1..], id));
    }
  }

  lemma {:induction false} WithoutInOrder(q: Queue, id: OrderId)
    ensures KeepsOrder(Without(q, id), q)
  {
    if q != [] {
      WithoutInOrder(q[1..], id);
      assert forall x :: x in Without(q[1..], id) ==> x in q[1..] by {
        WithoutMembers(q[1..], id);
      }
      OrderFromTail(Without(q[1..], id), q);
      assert [] + Without(q[1..], id) == Without(q[1..], id);
    }
  }

  lemma {:induction false} WithoutMembers(q: Queue, id: OrderId)
    ensures forall x :: x in Without(q, id) <==> x in q && x.id != id
  {
    if q != [] {
      WithoutMembers(q[1..], id);
      assert q == [q[0]] + q[1..];
    }
  }

  lemma {:induction false} OthersOk(side: Side, p: Price, q: Queue, user: UserId)
    requires QueueOk(side, p, q)
    ensures QueueOk(side, p, Others(user, q))
  {
    if q != [] {
      TailOk(side, p, q);
      OthersOk(side, p, q[1..], user);
      OthersMembers(user, q[1..]);
      JoinFront(side, p, q[0], Others(user, q[1..]));
    }
  }

  lemma {:induction false} TailOk(side: Side, p: Price, q: Queue)
    requires QueueOk(side, p, q) && q != []
    ensures QueueOk(side, p, q[1..])
    ensures forall o :: o in q <==> o == q[0] || o in q[1..]
    ensures forall o :: o in q[1..] ==> o.id != q[0].id
  {
    assert q == [q[0]] + q[1..];
  }

  lemma {:induction false} JoinFront(side: Side, p: Price, o: Order, q: Queue)
    requires QueueOk(side, p, q) && o.side == side && o.price == p && o.remaining > 0 && forall x :: x in q ==>
               x.id != o.id
    ensures QueueOk(side, p, [o] + q)
    ensures [] + q == q
  {
  }

  /** Cancelling takes out exactly the order with that id; every queue keeps its other orders in order. */
  lemma {:induction false} CancelLaw(b: Book, id: OrderId)
    requires b.Valid()
    ensures var (b', r) := Cancel(b, id);
            && b'.Valid()
            && (forall x :: x in b'.Orders() <==> x in b.Orders() && x.id != id)
            && (r.Some? <==> id in Ids(b.Orders()))
            && (r == None ==> b' == b)
            && (r.Some? ==> forall x :: x in b.Orders() && x.id == id ==> x.Fixed() == r.value.Fixed())
            && (forall side, p :: At(b'.Side(side), p) == Without(At(b.Side(side), p), id))
            && (forall side, p :: KeepsOrder(At(b'.Side(side), p), At(b.Side(side), p)))
            && (r.Some? ==> r.value == b.index[id])
  {
    forall side, p
      ensures KeepsOrder(Without(At(b.Side(side), p), id), At(b.Side(side), p))
    {
      WithoutInOrder(At(b.Side(side), p), id);
    }
    if id in b.index {
      CancelQueues(b, id);
      CancelOrders(b, id);
    } else {
      forall side, p
        ensures At(b.Side(side), p) == Without(At(b.Side(side), p), id)
      {
        NotThere(b, id, side, p);
      }
      assert forall x :: x in b.Orders() ==> x.id in b.index;
    }
  }

  lemma {:induction false} NotThere(b: Book, id: OrderId, side: Side, p: Price)
    requires b.Valid() && forall x :: x in b.Orders() && x.id == id ==> x.side != side || x.price != p
    ensures Without(At(b.Side(side), p), id) == At(b.Side(side), p)
  {
    var q := At(b.Side(side), p);
    forall x | x in q
      ensures x.id != id
    {
      assert x in Pool(b.Side(side)) && x in b.Orders() && x.side == side && x.price == p;
    }
    WithoutNone(q, id);
  }

  lemma {:induction false} WithoutNone(q: Queue, id: OrderId)
    requires forall x :: x in q ==> x.id != id
    ensures Without(q, id) == q
  {
    if q != [] {
      WithoutNone(q[1..], id);
    }
  }

  /** The resting order the index entry stands for. */
  lemma {:induction false} Indexed(b: Book, id: OrderId) returns (x: Order)
    requires b.Valid() && id in b.index
    ensures x in b.Orders() && x.id == id && x.Fixed() == b.index[id].Fixed()
    ensures x.side == b.index[id].side && x.price == b.index[id].price && x.user == b.index[id].user
    ensures x in Pool(b.Side(x.side)) && x.price in b.Side(x.side) && x in b.Side(x.side)[x.price]
    ensures forall y :: y in b.Orders() && y.id == id ==> y == x
  {
    x :| x in b.Orders() && x.id == id;
    SameTaker(x, b.index[id]);
  }

  lemma {:induction false} CancelQueues(b: Book, id: OrderId)
    requires b.Valid() && id in b.index
    ensures var b' := Cancel(b, id).0;
            && LevelsOk(Buy, b'.bids) && LevelsOk(Sell, b'.asks)
            && forall side, p :: At(b'.Side(side), p) == Without(At(b.Side(side), p), id)
  {
    hide Without, QueueOk, Elems, Ids, UniqueIds;
    var x := Indexed(b, id);
    var m := b.Side(x.side);
    WithoutOk(x.side, x.price, m[x.price], id);
    forall side, p
      ensures At(Cancel(b, id).0.Side(side), p) == Without(At(b.Side(side), p), id)
    {
      if side != x.side || p != x.price {
        NotThere(b, id, side, p);
      }
    }
  }

  lemma {:induction false} CancelPool(side: Side, m: LevelMap, p: Price, id: OrderId)
    requires LevelsOk(side, m) && p in m && forall x :: x in Pool(m) && x.id == id ==> x.price == p
    ensures forall x :: x in Pool(Put(m, p, Without(m[p], id))) <==> x in Pool(m) && x.id != id
  {
    WithoutOk(side, p, m[p], id);
    PoolSplit(m, p);
    PoolPut(m, p, Without(m[p], id));
    assert forall x :: x in Pool(m - {p}) ==> x.price != p;
    PoolShrinks(m, p);
  }

  lemma {:induction false} CancelOrders(b: Book, id: OrderId)
    requires b.Valid() && id in b.index
    ensures var (b', r) := Cancel(b, id);
            && b'.Valid()
            && (forall x :: x in b'.Orders() <==> x in b.Orders() && x.id != id)
            && r.Some? && (forall x :: x in b.Orders() && x.id == id ==> x.Fixed() == r.value.Fixed())
  {
    hide LevelsOk, UniqueIds;
    var (b', r) := Cancel(b, id);
    var x := Indexed(b, id);
    var m := b.Side(x.side);
    CancelQueues(b, id);
    SidesOf(b, x.side);
    SidesOf(b', x.side);
    assert LevelsOk(x.side, m);
    CancelPool(x.side, m, x.price, id);
    SidesApart(x.side, m, b.Side(x.side.Opposite()));
    assert forall y :: y in Pool(b.Side(x.side.Opposite())) ==> y.id != id;
    CancelIndex(b, b', id);
  }

  lemma {:induction false} CancelIndex(b: Book, b': Book, id: OrderId)
    requires b.Valid() && LevelsOk(Buy, b'.bids) && LevelsOk(Sell, b'.asks) && b'.index == b.index - {id}
    requires forall x :: x in b'.Orders() <==> x in b.Orders() && x.id != id
    ensures b'.Valid()
  {
    hide LevelsOk;
    forall i | i in b'.index
      ensures i in Ids(b'.Orders())
    {
      assert i in Ids(b.Orders());
    }
    assert forall x :: x in b'.Orders() ==> x.id in Ids(b.Orders());
  }

  /** Removing a user takes out exactly that user's orders; every queue keeps the others in order. */
  lemma {:induction false} CancelUserLaw(b: Book, user: UserId)
    requires b.Valid()
    ensures var b' := CancelUser(b, user);
            && b'.Valid()
            && (forall x :: x in b'.Orders() <==> x in b.Orders() && x.user != user)
            && (forall side: Side, p :: At(b'.Side(side), p) == Others(user, At(b.Side(side), p)))
            && (forall side: Side, p :: KeepsOrder(At(b'.Side(side), p), At(b.Side(side), p)))
  {
    hide LevelsOk, KeepsOrder;
    forall side: Side, p
      ensures KeepsOrder(Others(user, At(b.Side(side), p)), At(b.Side(side), p))
    {
      OthersInOrder(user, At(b.Side(side), p));
    }
    OthersOnlyOk(Buy, b.bids, user);
    OthersOnlyOk(Sell, b.asks, user);
    CancelUserIndex(b, CancelUser(b, user), user);
  }

  lemma {:induction false} CancelUserIndex(b: Book, b': Book, user: UserId)
    requires b.Valid() && LevelsOk(Buy, b'.bids) && LevelsOk(Sell, b'.asks)
             && b'.index == b.index - IdsOf(b.index, user)
    requires forall x :: x in b'.Orders() <==> x in b.Orders() && x.user != user
    ensures b'.Valid()
  {
    hide LevelsOk;
    forall i | i in b'.index
      ensures i in Ids(b'.Orders())
    {
      var x := Indexed(b, i);
    }
    forall x | x in b'.Orders()
      ensures x.id in b'.index && b'.index[x.id].Fixed() == x.Fixed()
    {
      assert x.id in Ids(b.Orders());
      SameTaker(b.index[x.id], x);
    }
  }

  lemma {:induction false} OthersOnlyOk(side: Side, m: LevelMap, user: UserId)
    requires LevelsOk(side, m)
    ensures LevelsOk(side, OthersOnly(m, user))
    ensures forall x :: x in Pool(OthersOnly(m, user)) <==> x in Pool(m) && x.user != user
  {
    var m' := OthersOnly(m, user);
    forall p | p in m
      ensures QueueOk(side, p, Others(user, m[p]))
      ensures forall o :: o in Others(user, m[p]) <==> o in m[p] && o.user != user
    {
      OthersOk(side, p, m[p], user);
      OthersMembers(user, m[p]);
    }
    forall x | x in Pool(m) && x.user != user
      ensures x in Pool(m')
    {
      var p :| p in m && x in m[p];
      assert x in Others(user, m[p]) && p in m';
    }
  }
}
