/** Runs in which nobody crosses his own resting orders keep every book's best bid below its best ask. */
module Spread {
  import opened Types
  import opened Levels
  import opened Crossing
  import opened OrderBooks
  import opened BookLaws
  import opened Users
  import opened Engine
  import opened Settlement
  import opened EngineLaws
  import opened Runs

  ghost predicate AllUncrossed(s: State) {
    forall p :: p in s.books ==> Uncrossed(s.books[p])
  }

  /** The command enters no order that crosses one of its own user's. */
  ghost predicate Quiet(s: State, c: Command, now: Timestamp) {
    match c
    case PlaceOrder(pair, o) => pair in s.books && o.kind.Rests() ==> !CrossesOwn(s.books[pair], o)
    case Modifying(pair, m) =>
      pair in s.books && m.id in s.books[pair].index ==>
        !CrossesOwn(Cancel(s.books[pair], m.id).0, Replacement(s.books[pair].index[m.id], m, now))
    case _ => true
  }

  lemma {:induction false} FewerUncrossed(b: Book, b': Book)
    requires b.Valid() && b'.Valid() && Uncrossed(b) && forall x :: x in b'.Orders() ==> x in b.Orders()
    ensures Uncrossed(b')
  {
    hide Pool, Ids, UniqueIds, LevelsOk;
    BySide(b);
    BySide(b');
  }

  lemma {:induction false} AddKeepsUncrossed(b: Book, o: Order)
    requires b.Valid() && o.id !in b.index && o.remaining > 0 && Uncrossed(b) && (o.kind.Rests() ==> !CrossesOwn(b, o))
    ensures Uncrossed(Add(b, o).0)
  {
    hide Add, Book.Valid, Uncrossed, CrossesOwn;
    if o.kind.Rests() {
      UncrossedLaw(b, o);
    } else {
      TakerKeepsOnlySelf(b, o);
    }
  }

  /** What placing does to the books. */
  lemma {:induction false} BooksPlaced(s: State, pair: TradingPair, o: Order)
    ensures var (s', r) := AddOrder(s, pair, o);
            && (r.Rejected? ==> s' == s)
            && (!r.Rejected? ==> pair in s.books && o.id !in s.books[pair].index && ValidOrder(o.price, o.initial))
            && (!r.Rejected? && !r.Panicked? ==> s'.books == s.books[pair := Add(s.books[pair], o).0])
            && (r.Traded? ==> Add(s.books[pair], o).1 == Some(r.matches))
  {
    hide Add, LockedFor, Settle;
  }

  lemma {:induction false} AddOrderUncrossed(s: State, g: Gains, pair: TradingPair, o: Order)
    requires Inv(s, g, Nothing) && AsNew(o) && AllUncrossed(s)
    requires pair in s.books && o.kind.Rests() ==> !CrossesOwn(s.books[pair], o)
    ensures var (s', r) := AddOrder(s, pair, o); !r.Panicked? ==> AllUncrossed(s')
  {
    hide Inv, AddOrder, Add, Uncrossed, CrossesOwn, Book.Valid;
    BooksPlaced(s, pair, o);
    if !AddOrder(s, pair, o).1.Rejected? {
      BookOf(s, g, pair);
      AddKeepsUncrossed(s.books[pair], o);
    }
  }

  lemma {:induction false} BookOf(s: State, g: Gains, pair: TradingPair)
    requires Inv(s, g, Nothing) && pair in s.books
    ensures s.books[pair].Valid()
  {
    hide BookInv;
    BookInvValid(s, g, Nothing, pair);
  }

  lemma {:induction false} CancelUncrossed(s: State, g: Gains, pair: TradingPair, id: OrderId)
    requires Inv(s, g, Nothing) && AllUncrossed(s)
    ensures AllUncrossed(CancelOrder(s, pair, id).0)
  {
    hide Inv, Cancel, Uncrossed, Book.Valid;
    if pair in s.books {
      BookOf(s, g, pair);
      CancelLaw(s.books[pair], id);
      FewerUncrossed(s.books[pair], Cancel(s.books[pair], id).0);
    }
  }

  lemma {:induction false} ModifyUncrossed(s: State, g: Gains, pair: TradingPair, m: OrderModify, now: Timestamp)
    requires Inv(s, g, Nothing) && AllUncrossed(s) && Quiet(s, Modifying(pair, m), now)
    ensures var (s', r) := ModifyOrder(s, pair, m, now); !r.Panicked? ==> AllUncrossed(s')
  {
    hide Inv, Cancel, AddOrder, Uncrossed, CrossesOwn, Available, LockedFor, ExecuteOn, Fresh;
    if ModifyRefused(s, pair, m) == None {
      var o, s1 := Replacement(s.books[pair].index[m.id], m, now), CancelOrder(s, pair, m.id).0;
      ModifyIsCancelThenAdd(s, g, pair, m, now);
      CancelOrderLaw(s, g, pair, m.id);
      CancelUncrossed(s, g, pair, m.id);
      AddOrderUncrossed(s1, g - {m.id}, pair, o);
    }
  }

  lemma {:induction false} RemoveUserUncrossed(s: State, g: Gains, user: UserId)
    requires Inv(s, g, Nothing) && AllUncrossed(s)
    ensures AllUncrossed(RemoveUser(s, user))
  {
    hide Inv, CancelUser, Uncrossed, Book.Valid, Book.Orders;
    forall p | p in s.books
      ensures Uncrossed(CancelUser(s.books[p], user))
    {
      BookOf(s, g, p);
      CancelUserLaw(s.books[p], user);
      FewerUncrossed(s.books[p], CancelUser(s.books[p], user));
    }
  }

  lemma {:induction false} ExecUncrossed(s: State, g: Gains, last: int, c: Command, now: Timestamp)
    requires Reachable(s, g, last) && Admissible(c, last) && AllUncrossed(s) && Quiet(s, c, now)
    ensures var (s', r) := Exec(s, c, now); !r.Faulty() ==> AllUncrossed(s')
  {
    hide Inv, Fresh, AddOrder, CancelOrder, ModifyOrder, RemoveUser, Withdrawn, Deposited, CrossesOwn, Cancel;
    match c
    case PlaceOrder(pair, o) => AddOrderUncrossed(s, g, pair, o);
    case Cancelling(pair, id) => CancelUncrossed(s, g, pair, id);
    case Modifying(pair, m) => ModifyUncrossed(s, g, pair, m, now);
    case DropUser(user) => RemoveUserUncrossed(s, g, user);
    case _ =>
  }

  /** Every command of the run is quiet where it is carried out. */
  ghost predicate QuietRun(t: Run, cmds: seq<Command>, clock: nat -> Timestamp)
    decreases cmds
  {
    cmds != [] && t.fault == None ==>
      Quiet(t.state, cmds[0], clock(|t.replies|)) && QuietRun(Advance(t, cmds[0], clock(|t.replies|)), cmds[1..], clock)
  }

  lemma {:induction false} QuietKeeps(t: Run, cmds: seq<Command>, clock: nat -> Timestamp)
    requires AllAdmissible(cmds, t.last) && QuietRun(t, cmds, clock)
    requires t.fault == None ==> Reachable(t.state, t.gains, t.last) && AllUncrossed(t.state)
    ensures var t' := RunAll(t, cmds, clock); t'.fault == None ==> AllUncrossed(t'.state)
    decreases cmds
  {
    hide Exec, Reachable, AllUncrossed, Quiet, NextGains;
    if cmds != [] && t.fault == None {
      ExecLaw(t.state, t.gains, t.last, cmds[0], clock(|t.replies|));
      ExecUncrossed(t.state, t.gains, t.last, cmds[0], clock(|t.replies|));
      QuietKeeps(Advance(t, cmds[0], clock(|t.replies|)), cmds[1..], clock);
    }
  }

  /** As long as nobody crosses his own resting orders, after every command the best bid of every book is below
      its best ask. */
  lemma {:induction false} BidBelowAsk(cmds: seq<Command>, clock: nat -> Timestamp, pair: TradingPair)
    requires AllAdmissible(cmds, -1) && QuietRun(START, cmds, clock)
    ensures var t := RunAll(START, cmds, clock);
            t.fault == None && pair in t.state.books && t.state.books[pair].bids != map[]
              && t.state.books[pair].asks != map[] ==>
              Best(Buy, t.state.books[pair].bids) < Best(Sell, t.state.books[pair].asks)
  {
    hide RunAll, Reachable, QuietRun, Book.Valid, Uncrossed, AllUncrossed, AllAdmissible, Best;
    assert AllUncrossed(NEW_ENGINE) by {
      NoBooks();
    }
    StartReachable();
    QuietKeeps(START, cmds, clock);
    RunLaw(START, cmds, clock);
    var t := RunAll(START, cmds, clock);
    if t.fault == None && pair in t.state.books {
      OneBook(t.state, t.gains, t.last, pair);
      BestApart(t.state.books[pair]);
    }
  }

  lemma {:induction false} NoBooks()
    ensures AllUncrossed(NEW_ENGINE)
  {
  }

  lemma {:induction false} OneBook(s: State, g: Gains, last: int, pair: TradingPair)
    requires Reachable(s, g, last) && AllUncrossed(s) && pair in s.books
    ensures s.books[pair].Valid() && Uncrossed(s.books[pair])
  {
    hide Inv, UnusedAbove, Uncrossed, Book.Valid;
    BookOf(s, g, pair);
  }

  lemma {:induction false} BestApart(b: Book)
    requires b.Valid() && Uncrossed(b)
    ensures b.bids != map[] && b.asks != map[] ==> Best(Buy, b.bids) < Best(Sell, b.asks)
  {
    hide UniqueIds, Ids, Distinct;
    if b.bids != map[] && b.asks != map[] {
      var p, q := Best(Buy, b.bids), Best(Sell, b.asks);
      var x, y := b.bids[p][0], b.asks[q][0];
      assert x in b.bids[p] && y in b.asks[q];
      assert x in Pool(b.bids) && y in Pool(b.asks);
    }
  }

  // ---- Crossings between users ----

  ghost predicate AllOnlySelf(s: State) {
    forall p :: p in s.books ==> OnlySelf(s.books[p])
  }

  /** The command enters an order that is blocked where it is entered. */
  ghost predicate EntersBlocked(s: State, c: Command, now: Timestamp) {
    match c
    case PlaceOrder(pair, o) =>
      pair in s.books && !AddOrder(s, pair, o).1.Rejected? && o.kind.Rests() && BlockedIn(s.books[pair], o)
    case Modifying(pair, m) =>
      pair in s.books && ModifyRefused(s, pair, m) == None &&
      BlockedIn(Cancel(s.books[pair], m.id).0, Replacement(s.books[pair].index[m.id], m, now))
    case _ => false
  }

  ghost predicate BlockedIn(b: Book, o: Order) {
    Blocked(o, b.Side(o.side), OppositeOf(b, o))
  }

  lemma {:induction false} FewerOnlySelf(b: Book, b': Book)
    requires b.Valid() && b'.Valid() && OnlySelf(b) && forall x :: x in b'.Orders() ==> x in b.Orders()
    ensures OnlySelf(b')
  {
    hide Pool, Ids, UniqueIds, LevelsOk;
    BySide(b);
    BySide(b');
  }

  /** From a book only crossed by one user's own orders, placing keeps it so exactly if the order is not blocked;
      a blocked order trades nothing. */
  lemma {:induction false} AddOnlySelfIff(b: Book, o: Order)
    requires b.Valid() && o.id !in b.index && o.remaining > 0 && OnlySelf(b)
    ensures OnlySelf(Add(b, o).0) <==> !(o.kind.Rests() && BlockedIn(b, o))
    ensures o.kind.Rests() && BlockedIn(b, o) ==> Add(b, o).1 == Some([])
  {
    hide Add, Book.Valid, OnlySelf, Blocked;
    if o.kind.Rests() {
      RestingLaw(b, o);
    } else {
      TakerKeepsOnlySelf(b, o);
    }
  }

  lemma {:induction false} AddOrderOnlySelf(s: State, g: Gains, pair: TradingPair, o: Order)
    requires Inv(s, g, Nothing) && AsNew(o) && AllOnlySelf(s)
    ensures var (s', r) := AddOrder(s, pair, o);
            var blocked := pair in s.books && !r.Rejected? && o.kind.Rests() && BlockedIn(s.books[pair], o);
            (if r.Panicked? then !blocked else AllOnlySelf(s') <==> !blocked)
  {
    hide Inv, AddOrder, Add, OnlySelf, BlockedIn, Book.Valid;
    BooksPlaced(s, pair, o);
    if !AddOrder(s, pair, o).1.Rejected? {
      BookOf(s, g, pair);
      AddOnlySelfIff(s.books[pair], o);
      if Add(s.books[pair], o).1 == Some([]) {
        NothingPanics(s, pair, o);
      }
      var (s', r) := AddOrder(s, pair, o);
      if !r.Panicked? {
        assert pair in s'.books && s'.books[pair] == Add(s.books[pair], o).0;
      }
    }
  }

  /** An order that trades nothing does not panic. */
  lemma {:induction false} NothingPanics(s: State, pair: TradingPair, o: Order)
    requires pair in s.books && Add(s.books[pair], o).1 == Some([])
    ensures !AddOrder(s, pair, o).1.Panicked?
  {
    hide Add, LockedFor, ValidOrder;
  }

  lemma {:induction false} CancelOnlySelf(s: State, g: Gains, pair: TradingPair, id: OrderId)
    requires Inv(s, g, Nothing) && AllOnlySelf(s)
    ensures AllOnlySelf(CancelOrder(s, pair, id).0)
  {
    hide Inv, Cancel, OnlySelf, Book.Valid;
    if pair in s.books {
      BookOf(s, g, pair);
      CancelLaw(s.books[pair], id);
      FewerOnlySelf(s.books[pair], Cancel(s.books[pair], id).0);
    }
  }

  lemma {:induction false} ModifyOnlySelf(s: State, g: Gains, pair: TradingPair, m: OrderModify, now: Timestamp)
    requires Inv(s, g, Nothing) && AllOnlySelf(s)
    ensures var (s', r) := ModifyOrder(s, pair, m, now);
            var blocked := EntersBlocked(s, Modifying(pair, m), now);
            (if r.Panicked? then !blocked else AllOnlySelf(s') <==> !blocked)
  {
    hide Inv, Cancel, AddOrder, OnlySelf, BlockedIn, Available, LockedFor, ExecuteOn, Fresh;
    if ModifyRefused(s, pair, m) == None {
      var o, s1 := Replacement(s.books[pair].index[m.id], m, now), CancelOrder(s, pair, m.id).0;
      ModifyIsCancelThenAdd(s, g, pair, m, now);
      CancelOrderLaw(s, g, pair, m.id);
      CancelOnlySelf(s, g, pair, m.id);
      AddOrderOnlySelf(s1, g - {m.id}, pair, o);
    }
  }

  lemma {:induction false} RemoveUserOnlySelf(s: State, g: Gains, user: UserId)
    requires Inv(s, g, Nothing) && AllOnlySelf(s)
    ensures AllOnlySelf(RemoveUser(s, user))
  {
    hide Inv, CancelUser, OnlySelf, Book.Valid, Book.Orders;
    forall p | p in s.books
      ensures OnlySelf(CancelUser(s.books[p], user))
    {
      BookOf(s, g, p);
      CancelUserLaw(s.books[p], user);
      FewerOnlySelf(s.books[p], CancelUser(s.books[p], user));
    }
  }

  lemma {:induction false} ExecOnlySelf(s: State, g: Gains, last: int, c: Command, now: Timestamp)
    requires Reachable(s, g, last) && Admissible(c, last) && AllOnlySelf(s)
    ensures var (s', r) := Exec(s, c, now);
            (if r.Faulty() then !EntersBlocked(s, c, now) else AllOnlySelf(s') <==> !EntersBlocked(s, c, now))
  {
    hide Inv, Fresh, AddOrder, CancelOrder, ModifyOrder, RemoveUser, Withdrawn, Deposited, BlockedIn, Cancel,
      ModifyRefused;
    match c
    case PlaceOrder(pair, o) => AddOrderOnlySelf(s, g, pair, o);
    case Cancelling(pair, id) => CancelOnlySelf(s, g, pair, id);
    case Modifying(pair, m) => ModifyOnlySelf(s, g, pair, m, now);
    case DropUser(user) => RemoveUserOnlySelf(s, g, user);
    case _ =>
  }

  /** After every command of the run no book is crossed between users. */
  ghost predicate NeverCrossed(t: Run, cmds: seq<Command>, clock: nat -> Timestamp)
    decreases cmds
  {
    && AllOnlySelf(t.state)
    && (cmds != [] && t.fault == None ==> NeverCrossed(Advance(t, cmds[0], clock(|t.replies|)), cmds[1..], clock))
  }

  /** No command of the run enters an order that is blocked where it is entered. */
  ghost predicate NeverBlocked(t: Run, cmds: seq<Command>, clock: nat -> Timestamp)
    decreases cmds
  {
    cmds != [] && t.fault == None ==>
      !EntersBlocked(t.state, cmds[0], clock(|t.replies|))
      && NeverBlocked(Advance(t, cmds[0], clock(|t.replies|)), cmds[1..], clock)
  }

  lemma {:induction false} CrossedIffBlocked(t: Run, cmds: seq<Command>, clock: nat -> Timestamp)
    requires AllAdmissible(cmds, t.last) && AllOnlySelf(t.state)
    requires t.fault == None ==> Reachable(t.state, t.gains, t.last)
    ensures NeverCrossed(t, cmds, clock) <==> NeverBlocked(t, cmds, clock)
    decreases cmds
  {
    hide Exec, Reachable, AllOnlySelf, EntersBlocked, NextGains;
    if cmds != [] && t.fault == None {
      var now := clock(|t.replies|);
      ExecLaw(t.state, t.gains, t.last, cmds[0], now);
      ExecOnlySelf(t.state, t.gains, t.last, cmds[0], now);
      if !EntersBlocked(t.state, cmds[0], now) {
        CrossedIffBlocked(Advance(t, cmds[0], now), cmds[1..], clock);
      }
    }
  }

  /** In a run from the start, every book stays free of crossings between users, after every command, exactly
      when no order placed or modified was blocked where it was entered. */
  lemma {:induction false} NeverCrossedIff(cmds: seq<Command>, clock: nat -> Timestamp)
    requires AllAdmissible(cmds, -1)
    ensures NeverCrossed(START, cmds, clock) <==> NeverBlocked(START, cmds, clock)
  {
    hide Reachable, NeverCrossed, NeverBlocked, AllAdmissible, OnlySelf;
    StartReachable();
    CrossedIffBlocked(START, cmds, clock);
  }
}
