/** The engine's invariant and what every operation keeps of it. */
module EngineLaws {
  import opened Types
  import opened Levels
  import opened Soundness
  import opened Greedy
  import opened OrderBooks
  import opened BookLaws
  import opened Users
  import opened Engine
  import opened Settlement

  /** An order locked for but not yet in its book. */
  datatype Pending = Nothing | Entering(pair: TradingPair, order: Order)

  ghost function Live(s: State, pair: TradingPair, pend: Pending): set<Order>
    requires pair in s.books
  {
    s.books[pair].Orders() + (if pend.Entering? && pend.pair == pair then {pend.order} else {})
  }

  /** One book: well formed, resting kinds only, every live order sane and exactly backed by its owner's lock. */
  ghost predicate BookInv(s: State, g: Gains, pend: Pending, pair: TradingPair)
    requires pair in s.books
  {
    && s.books[pair].Valid()
    && (forall o :: o in s.books[pair].Orders() ==> o.kind.Rests())
    && UniqueIds(Live(s, pair, pend))
    && AllBacked(s.users, pair, Live(s, pair, pend), g)
    && OwnLocks(s.users, Live(s, pair, pend))
  }

  /** No order id occurs in two books. */
  ghost predicate BooksApart(s: State, pend: Pending) {
    forall p, q :: p in s.books && q in s.books && p != q ==> Ids(Live(s, p, pend)) !! Ids(Live(s, q, pend))
  }

  ghost predicate LiveSomewhere(s: State, pend: Pending, id: OrderId) {
    exists p :: p in s.books && id in Ids(Live(s, p, pend))
  }

  /** Every lock is some live order's, or holds the price improvement of a buy order that is gone. */
  ghost predicate LocksKnown(s: State, g: Gains, pend: Pending) {
    forall u, id :: u in s.users && id in s.users[u].locks ==>
      LiveSomewhere(s, pend, id) || s.users[u].locks[id].amount == Gain(g, id)
  }

  ghost predicate Inv(s: State, g: Gains, pend: Pending) {
    && (forall p :: p in s.books ==> BookInv(s, g, pend, p))
    && AllSolvent(s.users)
    && BooksApart(s, pend)
    && LocksKnown(s, g, pend)
    && (pend.Entering? ==> pend.pair in s.books && pend.order.id !in s.books[pend.pair].index)
  }

  /** An id nothing in the engine refers to. */
  ghost predicate Fresh(s: State, g: Gains, id: OrderId) {
    && (forall p :: p in s.books ==> id !in s.books[p].index)
    && (forall u :: u in s.users ==> id !in s.users[u].locks)
    && Gain(g, id) == 0
  }

  /** As `Order::new` makes it. */
  predicate AsNew(o: Order) {
    o.remaining == o.initial
  }

  // ---- Locking for a new order ----

  /** `a` is the account of a new order's user once the order's funds are locked. */
  ghost predicate Locking(s: State, g: Gains, pair: TradingPair, o: Order, a: Account) {
    && Fresh(s, g, o.id) && AsNew(o) && ValidOrder(o.price, o.initial)
    && pair in s.books && o.user in s.users && LockAmount(o.side, o.price, o.initial).Some?
    && LockedFor(s.users[o.user], o.id, LockAsset(pair, o.side), LockAmount(o.side, o.price, o.initial).value)
       == Some(a)
  }

  lemma {:induction false} LiveIds(s: State, pair: TradingPair)
    requires pair in s.books && s.books[pair].Valid()
    ensures Live(s, pair, Nothing) == s.books[pair].Orders()
    ensures Ids(Live(s, pair, Nothing)) == s.books[pair].index.Keys
  {
  }

  /** The new order is sane and exactly backed. */
  lemma {:induction false} NewBacked(s: State, g: Gains, pair: TradingPair, o: Order, a: Account)
    requires Locking(s, g, pair, o, a)
    ensures Sane(o) && Backed(s.users[o.user := a], pair, o, g)
  {
    hide LockedSum, Available;
    assert a == s.users[o.user].(locks := a.locks);
  }

  lemma {:induction false} OldBacked(s: State, g: Gains, pair: TradingPair, o: Order, a: Account, p: TradingPair)
    requires Locking(s, g, pair, o, a) && p in s.books && BookInv(s, g, Nothing, p)
    ensures AllBacked(s.users[o.user := a], p, s.books[p].Orders(), g)
    ensures OwnLocks(s.users[o.user := a], s.books[p].Orders())
    ensures forall x :: x in s.books[p].Orders() ==> x.id != o.id
  {
    hide LockedSum, Available, UniqueIds, Sane, Due, LevelsOk;
    LiveIds(s, p);
    assert a.locks.Keys == s.users[o.user].locks.Keys + {o.id};
    forall x | x in s.books[p].Orders()
      ensures x.id != o.id && Sane(x) && Backed(s.users[o.user := a], p, x, g)
    {
      assert Sane(x) && Backed(s.users, p, x, g) && x.id in Ids(s.books[p].Orders());
    }
  }

  lemma {:induction false} NewcomerBook(s: State, g: Gains, pair: TradingPair, o: Order, a: Account, p: TradingPair)
    requires Locking(s, g, pair, o, a) && p in s.books && BookInv(s, g, Nothing, p)
    ensures BookInv(s.(users := s.users[o.user := a]), g, Entering(pair, o), p)
  {
    hide LockedSum, Available, Sane, Due, LevelsOk, Backed, UniqueIds, Book.Valid, LockedFor, ValidOrder;
    var s1 := s.(users := s.users[o.user := a]);
    OldBacked(s, g, pair, o, a, p);
    NewBacked(s, g, pair, o, a);
    NewIsApart(s.books[p], o);
    if p == pair {
      assert OwnLocks(s1.users, {o});
    } else {
      assert Live(s1, p, Entering(pair, o)) == s.books[p].Orders();
    }
  }

  lemma {:induction false} NewcomerIds(s: State, pair: TradingPair, o: Order, p: TradingPair)
    requires p in s.books && s.books[p].Valid() && o.id !in s.books[p].index
    ensures Ids(Live(s, p, Entering(pair, o))) == Ids(Live(s, p, Nothing)) + (if p == pair then {o.id} else {})
    ensures o.id !in Ids(Live(s, p, Nothing))
  {
    LiveIds(s, p);
  }

  lemma {:induction false} LockStep(s: State, g: Gains, pair: TradingPair, o: Order, a: Account)
    requires Inv(s, g, Nothing) && Locking(s, g, pair, o, a)
    ensures Inv(s.(users := s.users[o.user := a]), g, Entering(pair, o))
  {
    hide LockedSum, Available, Solvent, BookInv, Live;
    var s1, pend := s.(users := s.users[o.user := a]), Entering(pair, o);
    LockLaw(s.users[o.user], o.id, LockAsset(pair, o.side), LockAmount(o.side, o.price, o.initial).value);
    forall p | p in s1.books
      ensures BookInv(s1, g, pend, p)
    {
      NewcomerBook(s, g, pair, o, a, p);
    }
    forall p | p in s.books
      ensures Ids(Live(s1, p, pend)) == Ids(Live(s, p, Nothing)) + (if p == pair then {o.id} else {})
      ensures o.id !in Ids(Live(s, p, Nothing))
    {
      BookInvValid(s, g, Nothing, p);
      NewcomerIds(s, pair, o, p);
      SameLive(s, s1, p, pend);
    }
    NewcomerKnown(s, g, pair, o, a);
  }

  lemma {:induction false} BookInvValid(s: State, g: Gains, pend: Pending, p: TradingPair)
    requires p in s.books && BookInv(s, g, pend, p)
    ensures s.books[p].Valid()
  {
  }

  lemma {:induction false} SameLive(s: State, s1: State, p: TradingPair, pend: Pending)
    requires p in s.books && p in s1.books && s1.books[p] == s.books[p]
    ensures Live(s1, p, pend) == Live(s, p, pend)
  {
  }

  lemma {:induction false} LiveNothing(s: State, p: TradingPair)
    requires p in s.books
    ensures Live(s, p, Nothing) == s.books[p].Orders()
  {
  }

  lemma {:induction false} NewcomerKnown(s: State, g: Gains, pair: TradingPair, o: Order, a: Account)
    requires LocksKnown(s, g, Nothing) && Locking(s, g, pair, o, a)
    ensures LocksKnown(s.(users := s.users[o.user := a]), g, Entering(pair, o))
  {
    hide LockedSum, Available;
    var s1, pend := s.(users := s.users[o.user := a]), Entering(pair, o);
    forall u, id | u in s1.users && id in s1.users[u].locks
      ensures LiveSomewhere(s1, pend, id) || s1.users[u].locks[id].amount == Gain(g, id)
    {
      if id == o.id {
        assert o in Live(s1, pair, pend);
        assert id in Ids(Live(s1, pair, pend));
      } else {
        assert id in s.users[u].locks && s1.users[u].locks[id] == s.users[u].locks[id];
        if LiveSomewhere(s, Nothing, id) {
          var p :| p in s.books && id in Ids(Live(s, p, Nothing));
          assert Live(s, p, Nothing) <= Live(s1, p, pend);
          assert id in Ids(Live(s1, p, pend));
        }
      }
    }
  }

  // ---- Executing an order whose funds are locked ----

  /** The price improvement on record after an order is executed; only FAK orders give theirs back. */
  function ExecGains(g: Gains, o: Order, r: Placed): Gains {
    if r.Traded? then (if o.kind.FillAndKill? then GainAll(g, r.matches) - {o.id} else GainAll(g, r.matches)) else g
  }

  /** What matching and settling the pending order does to books and users, before a FAK lock is released. */
  ghost predicate Settles(s: State, g: Gains, pair: TradingPair, o: Order, book: Book, ms: seq<Match>,
                          discarded: set<Order>,
                          users: map<UserId, Account>)
    requires pair in s.books
  {
    var live := s.books[pair].Orders() + {o};
    && PlacedSoundly(s.books[pair], o, book, ms, discarded)
    && UniqueIds(live)
    && SettledInto(s.users, users, pair, live, After(live, ms), GainAll(g, ms))
  }

  lemma {:induction false} PendingBook(s: State, g: Gains, pair: TradingPair, o: Order)
    requires Inv(s, g, Entering(pair, o))
    ensures s.books[pair].Valid() && o.id !in s.books[pair].index && Sane(o)
    ensures Settling(s.users, pair, s.books[pair].Orders() + {o}, g) && OwnLocks(s.users, s.books[pair].Orders() + {o})
    ensures forall x :: x in s.books[pair].Orders() ==> x.kind.Rests()
  {
    hide UniqueIds, Backed, Solvent, LevelsOk;
    assert BookInv(s, g, Entering(pair, o), pair);
    assert Live(s, pair, Entering(pair, o)) == s.books[pair].Orders() + {o};
  }

  /** Orders none of whose ids were touched stay exactly backed. */
  lemma {:induction false} Framed(users: map<UserId, Account>, users': map<UserId, Account>, q: TradingPair,
                                  os: set<Order>,
                                  ids: set<OrderId>, g: Gains, g': Gains)
    requires AllBacked(users, q, os, g) && OwnLocks(users, os) && LocksOutside(users, users', ids) && Ids(os) !! ids
    requires forall id :: id !in ids ==> Gain(g', id) == Gain(g, id)
    ensures AllBacked(users', q, os, g') && OwnLocks(users', os)
  {
    hide Sane;
    forall x | x in os
      ensures Sane(x) && Backed(users', q, x, g')
    {
      assert Sane(x) && Backed(users, q, x, g) && x.id in Ids(os);
      assert SameLock(users[x.user], users'[x.user], x.id);
    }
  }

  /** Another book's orders are none of the live orders of this one. */
  lemma {:induction false} OtherBook(s: State, g: Gains, pair: TradingPair, o: Order, q: TradingPair)
    requires Inv(s, g, Entering(pair, o)) && q in s.books && q != pair
    ensures AllBacked(s.users, q, s.books[q].Orders(), g) && OwnLocks(s.users, s.books[q].Orders())
    ensures Ids(s.books[q].Orders()) !! Ids(s.books[pair].Orders() + {o})
  {
    hide UniqueIds, Backed, Solvent, LevelsOk, Sane;
    var pend := Entering(pair, o);
    assert BookInv(s, g, pend, q);
    assert Live(s, q, pend) == s.books[q].Orders() && Live(s, pair, pend) == s.books[pair].Orders() + {o};
  }

  /** The traded book under the users after settlement. */
  lemma {:induction false} TradedBookKept(s: State, g: Gains, pair: TradingPair, o: Order, book: Book, ms: seq<Match>,
                                          discarded: set<Order>, users: map<UserId, Account>)
    requires Inv(s, g, Entering(pair, o)) && Settles(s, g, pair, o, book, ms, discarded, users)
    requires discarded != {} ==> forall x :: x in book.Orders() ==> x.id != o.id
    requires !o.kind.Rests() ==> forall x :: x in book.Orders() ==> x.id != o.id
    ensures AllBacked(users, pair, book.Orders(), GainAll(g, ms)) && OwnLocks(users, book.Orders())
    ensures forall x :: x in book.Orders() ==> x.kind.Rests()
    ensures Ids(book.Orders()) <= Ids(s.books[pair].Orders() + {o})
  {
    hide UniqueIds, LevelsOk, Solvent, Sane, Backed, LegalRun, After, GainAll, Book.Valid, Book.Orders,
      OnlyGainsLeft, SameLock, BookInv, LocksKnown, BooksApart, AllSolvent;
    var live := s.books[pair].Orders() + {o};
    PendingBook(s, g, pair, o);
    forall x | x in book.Orders()
      ensures x.kind.Rests() && x.id in Ids(live) && forall u :: u in users && x.id in users[u].locks ==> x.user == u
    {
      assert x in After(live, ms);
      var was := RunOnlyShrinks(live, ms, x);
      SameTaker(was, x);
      assert was.Fixed().kind == was.kind && x.Fixed().kind == x.kind;
      assert was.id in Ids(live);
    }
  }

  /** The state once the pending order is matched and settled, any FAK lock not yet released. */
  function SettledState(s: State, pair: TradingPair, book: Book, users: map<UserId, Account>): State {
    State(s.books[pair := book], users)
  }

  lemma {:induction false} SettledBooks(s: State, g: Gains, pair: TradingPair, o: Order, book: Book, ms: seq<Match>,
                                        discarded: set<Order>, users: map<UserId, Account>)
    requires Inv(s, g, Entering(pair, o)) && Settles(s, g, pair, o, book, ms, discarded, users)
    requires !o.kind.Rests() ==> forall x :: x in book.Orders() ==> x.id != o.id
    ensures var s' := SettledState(s, pair, book, users);
            && (forall p :: p in s'.books ==> BookInv(s', GainAll(g, ms), Nothing, p))
            && BooksApart(s', Nothing)
  {
    hide UniqueIds, LevelsOk, Solvent, Sane, Backed, LegalRun, After, GainAll, Live, Book.Orders, OnlyGainsLeft,
      SameLock, Book.Valid;
    var s' := SettledState(s, pair, book, users);
    LiveNothing(s', pair);
    var live := s.books[pair].Orders() + {o};
    TradedBookKept(s, g, pair, o, book, ms, discarded, users);
    assert Live(s', pair, Nothing) == book.Orders();
    forall id | id !in Ids(live)
      ensures Gain(GainAll(g, ms), id) == Gain(g, id)
    {
      GainsOutside(g, ms, live, id);
    }
    forall p | p in s'.books
      ensures BookInv(s', GainAll(g, ms), Nothing, p)
      ensures p != pair ==> Ids(Live(s', p, Nothing)) !! Ids(live)
    {
      LiveNothing(s', p);
      if p != pair {
        OtherBook(s, g, pair, o, p);
        Framed(s.users, users, p, s.books[p].Orders(), Ids(live), g, GainAll(g, ms));
        OtherBookInv(s, g, pair, o, p);
      } else {
        assert UniqueIds(book.Orders()) by { ValidUnique(book); }
      }
    }
    SettledApart(s, g, pair, o, s', Ids(live));
  }

  lemma {:induction false} SettledApart(s: State, g: Gains, pair: TradingPair, o: Order, s': State, ids: set<OrderId>)
    requires Inv(s, g, Entering(pair, o)) && s'.books.Keys == s.books.Keys
    requires forall p :: p in s.books && p != pair ==> s'.books[p] == s.books[p] && Ids(Live(s', p, Nothing)) !! ids
    requires Ids(Live(s', pair, Nothing)) <= ids
    ensures BooksApart(s', Nothing)
  {
    hide BookInv, AllSolvent, LocksKnown, Ids;
    forall p, q | p in s'.books && q in s'.books && p != q
      ensures Ids(Live(s', p, Nothing)) !! Ids(Live(s', q, Nothing))
    {
      if p != pair && q != pair {
        OthersApart(s, g, pair, o, p, q);
        assert Live(s', p, Nothing) == s.books[p].Orders() && Live(s', q, Nothing) == s.books[q].Orders();
      }
    }
  }

  lemma {:induction false} ValidUnique(b: Book)
    requires b.Valid()
    ensures UniqueIds(b.Orders())
  {
  }

  lemma {:induction false} OtherBookInv(s: State, g: Gains, pair: TradingPair, o: Order, q: TradingPair)
    requires Inv(s, g, Entering(pair, o)) && q in s.books && q != pair
    ensures s.books[q].Valid() && UniqueIds(s.books[q].Orders()) && forall x :: x in s.books[q].Orders() ==>
              x.kind.Rests()
  {
    assert BookInv(s, g, Entering(pair, o), q);
  }

  lemma {:induction false} OthersApart(s: State, g: Gains, pair: TradingPair, o: Order, p: TradingPair, q: TradingPair)
    requires Inv(s, g, Entering(pair, o)) && p in s.books && q in s.books && p != pair && q != pair && p != q
    ensures Ids(s.books[p].Orders()) !! Ids(s.books[q].Orders())
  {
    hide BookInv, AllSolvent, LocksKnown;
    var pend := Entering(pair, o);
    assert Live(s, p, pend) == s.books[p].Orders() && Live(s, q, pend) == s.books[q].Orders();
  }

  /** Every lock after settlement: a live order's, the discarded remainder's, or price improvement. */
  lemma {:induction false} SettledLocks(s: State, g: Gains, pair: TradingPair, o: Order, book: Book, ms: seq<Match>,
                                        discarded: set<Order>, users: map<UserId, Account>)
    requires Inv(s, g, Entering(pair, o)) && Settles(s, g, pair, o, book, ms, discarded, users)
    ensures var s' := SettledState(s, pair, book, users);
            forall u, id :: u in users && id in users[u].locks ==>
              LiveSomewhere(s', Nothing, id) || id in Ids(discarded)
                || users[u].locks[id].amount == Gain(GainAll(g, ms), id)
  {
    hide UniqueIds, LevelsOk, Solvent, Sane, Backed, LegalRun, BookInv, Book.Valid;
    var s' := SettledState(s, pair, book, users);
    var live := s.books[pair].Orders() + {o};
    forall u, id | u in users && id in users[u].locks
      ensures LiveSomewhere(s', Nothing, id) || id in Ids(discarded)
              || users[u].locks[id].amount == Gain(GainAll(g, ms), id)
    {
      if id in Ids(live) {
        if id in Ids(After(live, ms)) && id !in Ids(discarded) {
          assert id in Ids(Live(s', pair, Nothing));
        }
      } else {
        GainsOutside(g, ms, live, id);
        assert SameLock(s.users[u], users[u], id);
        if LiveSomewhere(s, Entering(pair, o), id) {
          StillLive(s, pair, o, s', id);
        }
      }
    }
  }

  lemma {:induction false} StillLive(s: State, pair: TradingPair, o: Order, s': State, id: OrderId)
    requires pair in s.books && LiveSomewhere(s, Entering(pair, o), id) && id !in Ids(s.books[pair].Orders() + {o})
    requires s'.books.Keys == s.books.Keys && forall p :: p in s.books && p != pair ==> s'.books[p] == s.books[p]
    ensures LiveSomewhere(s', Nothing, id)
  {
    var p :| p in s.books && id in Ids(Live(s, p, Entering(pair, o)));
    assert Live(s, pair, Entering(pair, o)) == s.books[pair].Orders() + {o};
    assert Live(s', p, Nothing) == Live(s, p, Entering(pair, o));
  }

  /** Releasing a lock that belongs to no live order, together with its recorded improvement. */
  lemma {:induction false} Release(s: State, g: Gains, user: UserId, id: OrderId)
    requires (forall p :: p in s.books ==> BookInv(s, g, Nothing, p)) && BooksApart(s, Nothing) && AllSolvent(s.users)
    requires !LiveSomewhere(s, Nothing, id)
    requires forall u, i :: u in s.users && i in s.users[u].locks ==>
               LiveSomewhere(s, Nothing, i) || (i == id && u == user) || s.users[u].locks[i].amount == Gain(g, i)
    requires forall u :: u in s.users && id in s.users[u].locks ==> u == user
    ensures var s' := s.(users := UnlockFor(s.users, user, id));
            Inv(s', g - {id}, Nothing) && forall u :: u in s'.users ==> id !in s'.users[u].locks
  {
    hide UniqueIds, Solvent, Book.Valid, AllBacked, Live;
    var s' := s.(users := UnlockFor(s.users, user, id));
    ReleasedUsers(s.users, user, id);
    forall p | p in s'.books
      ensures BookInv(s', g - {id}, Nothing, p) && Live(s', p, Nothing) == Live(s, p, Nothing)
    {
      assert BookInv(s, g, Nothing, p);
      SameLive(s, s', p, Nothing);
      Framed(s.users, s'.users, p, Live(s, p, Nothing), {id}, g, g - {id});
    }
    forall u, i | u in s'.users && i in s'.users[u].locks
      ensures LiveSomewhere(s', Nothing, i) || s'.users[u].locks[i].amount == Gain(g - {id}, i)
    {
      assert i != id && SameLock(s.users[u], s'.users[u], i);
      SameBooksLive(s, s', i);
    }
  }

  lemma {:induction false} ReleasedUsers(users: map<UserId, Account>, user: UserId, id: OrderId)
    requires AllSolvent(users) && forall u :: u in users && id in users[u].locks ==> u == user
    ensures var users' := UnlockFor(users, user, id);
            && AllSolvent(users') && LocksOutside(users, users', {id})
            && forall u :: u in users' ==> id !in users'[u].locks
  {
    hide LockedSum;
    if user in users {
      UnlockLaw(users[user], id);
    }
  }

  lemma {:induction false} SameBooksLive(s: State, s': State, id: OrderId)
    requires s'.books == s.books
    ensures LiveSomewhere(s, Nothing, id) <==> LiveSomewhere(s', Nothing, id)
  {
    if LiveSomewhere(s, Nothing, id) {
      var p :| p in s.books && id in Ids(Live(s, p, Nothing));
      assert Live(s', p, Nothing) == Live(s, p, Nothing);
    }
    if LiveSomewhere(s', Nothing, id) {
      var p :| p in s'.books && id in Ids(Live(s', p, Nothing));
      assert Live(s', p, Nothing) == Live(s, p, Nothing);
    }
  }

  /** Settling the pending order's matches faults on the overflow of a credit at most. */
  lemma {:induction false} ExecuteSettles(s: State, g: Gains, pair: TradingPair,
                                          o: Order) returns (discarded: set<Order>)
    requires Inv(s, g, Entering(pair, o)) && o.remaining > 0 && Add(s.books[pair], o).1.Some?
    ensures var (book, r) := Add(s.books[pair], o);
            var st := Settle(s.users, pair, r.value);
            && (st.Fault? ==> st.fault == FillFailed(CreditOverflow))
            && (st.Settled? ==> Settles(s, g, pair, o, book, r.value, discarded, st.users))
            && (o.kind.Rests() || o.kind.FillOrKill? ==> discarded == {})
            && (forall x :: x in discarded ==> x.id == o.id)
            && (!o.kind.Rests() ==> forall x :: x in book.Orders() ==> x.id != o.id)
  {
    hide UniqueIds, LevelsOk, LegalRun, After, Book.Valid, Solvent, Backed, BookInv;
    PendingBook(s, g, pair, o);
    discarded := AddSound(s.books[pair], o);
    var ms := Add(s.books[pair], o).1.value;
    SettleLaw(s.users, pair, s.books[pair].Orders() + {o}, g, ms);
    forall x | x in discarded
      ensures x.id == o.id
    {
      SameTaker(x, o);
    }
  }

  /** Executing a pending order keeps the invariant, up to a panic on the overflow of a credit. */
  lemma {:induction false} ExecuteLaw(s: State, g: Gains, pair: TradingPair, o: Order)
    requires Inv(s, g, Entering(pair, o)) && o.remaining > 0
    ensures var (s', r) := ExecuteOn(s, pair, o);
            && (r.Panicked? ==> r.fault == FillFailed(CreditOverflow))
            && (r.Traded? ==> Inv(s', ExecGains(g, o, r), Nothing))
            && (r.Traded? && o.kind.FillAndKill? ==> forall u :: u in s'.users ==> o.id !in s'.users[u].locks)
            && (r.NoTrades? ==> s' == State(s.books, UnlockFor(s.users, o.user, o.id)))
            && (r.NoTrades? <==> Add(s.books[pair], o).1 == None)
  {
    hide Add, Settle, GainAll, BookInv, Live, LiveSomewhere, Settles, AllSolvent;
    var (book, r) := Add(s.books[pair], o);
    if r.Some? {
      var discarded := ExecuteSettles(s, g, pair, o);
      if Settle(s.users, pair, r.value).Settled? {
        var users := Settle(s.users, pair, r.value).users;
        SettledBooks(s, g, pair, o, book, r.value, discarded, users);
        SettledLocks(s, g, pair, o, book, r.value, discarded, users);
        SettledSolvent(s, g, pair, o, book, r.value, discarded, users);
        var s1 := SettledState(s, pair, book, users);
        if o.kind.FillAndKill? {
          TakerNotLive(s, g, pair, o, s1);
          Release(s1, GainAll(g, r.value), o.user, o.id);
        } else {
          assert discarded == {} && Ids(discarded) == {};
        }
      }
    } else {
      PendingBook(s, g, pair, o);
      var _ := AddSound(s.books[pair], o);
      assert s.books[pair := s.books[pair]] == s.books;
    }
  }

  lemma {:induction false} SettledSolvent(s: State, g: Gains, pair: TradingPair, o: Order, book: Book, ms: seq<Match>,
                                          discarded: set<Order>, users: map<UserId, Account>)
    requires Inv(s, g, Entering(pair, o)) && Settles(s, g, pair, o, book, ms, discarded, users)
    ensures AllSolvent(users)
    ensures forall u :: u in users && o.id in users[u].locks ==> u == o.user
  {
    hide UniqueIds, LevelsOk, LegalRun, After, Book.Valid, Solvent, Backed, AllBacked;
    PendingBook(s, g, pair, o);
  }

  /** A taker that never rests is live nowhere afterwards. */
  lemma {:induction false} TakerNotLive(s: State, g: Gains, pair: TradingPair, o: Order, s1: State)
    requires Inv(s, g, Entering(pair, o)) && s1.books.Keys == s.books.Keys
    requires forall p :: p in s.books && p != pair ==> s1.books[p] == s.books[p]
    requires forall x :: x in s1.books[pair].Orders() ==> x.id != o.id
    ensures !LiveSomewhere(s1, Nothing, o.id)
  {
    hide BookInv, AllSolvent, LocksKnown;
    assert o.id in Ids(s.books[pair].Orders() + {o});
    forall p | p in s1.books
      ensures o.id !in Ids(Live(s1, p, Nothing))
    {
      assert Live(s1, p, Nothing) == s1.books[p].Orders();
      if p != pair {
        OtherBook(s, g, pair, o, p);
      }
    }
  }

  // ---- What stays locked ----

  /** What the order `x` has locked before `o` is matched: `o` its whole worth at its limit. */
  function Had(s: State, o: Order, x: Order): int {
    if x == o then (if o.side.Buy? then o.price * o.initial else o.initial)
    else if x.user in s.users && x.id in s.users[x.user].locks then s.users[x.user].locks[x.id].amount
    else 0
  }

  /** Every order that was there, and `o` unless it is FAK, has locked what it had less what the trades cost it; if
      that leaves nothing the lock is gone, and if the order is filled it is its price improvement. The lock of a
      FAK order is gone. No other lock has moved. */
  ghost predicate LocksPaid(s: State, s': State, pair: TradingPair, o: Order, ms: seq<Match>, g': Gains) {
    && pair in s.books && pair in s'.books
    && (forall x :: x in s.books[pair].Orders() + {o} && (x != o || !o.kind.FillAndKill?) ==>
          PaidFor(s'.users, pair, x, Had(s, o, x), s'.books[pair].Orders(), ms, g'))
    && (o.kind.FillAndKill? ==> forall u :: u in s'.users ==> o.id !in s'.users[u].locks)
    && OthersSame(s.users, s'.users, Ids(s.books[pair].Orders() + {o})) && NoneNew(s.users, s'.users, o)
  }

  /** No user has a lock that was not there, but for the new order's. */
  ghost predicate NoneNew(users: map<UserId, Account>, users': map<UserId, Account>, o: Order) {
    forall u :: u in users && u in users' ==>
      users'[u].locks.Keys <= users[u].locks.Keys + if u == o.user then {o.id} else {}
  }

  /** No lock but those under `ids` has changed, come or gone. */
  ghost predicate OthersSame(users: map<UserId, Account>, users': map<UserId, Account>, ids: set<OrderId>) {
    && users'.Keys == users.Keys
    && (forall u, id {:trigger SameLock(users[u], users'[u], id)} :: u in users && id !in ids ==>
           SameLock(users[u], users'[u], id))
  }

  lemma {:induction false} OpenRemainders(b: Book)
    requires b.Valid()
    ensures forall x :: x in b.Orders() ==> x.remaining > 0
  {
    hide Distinct, UniqueIds;
  }

  /** After settlement, any FAK lock not yet released. */
  lemma {:induction false} SettledPaid(s: State, g: Gains, pair: TradingPair, o: Order, x: Order)
    requires Inv(s, g, Entering(pair, o)) && o.remaining > 0 && x in s.books[pair].Orders() + {o}
    requires Add(s.books[pair], o).1.Some? && Settle(s.users, pair, Add(s.books[pair], o).1.value).Settled?
    requires x != o || !o.kind.FillAndKill?
    ensures var (book, r) := Add(s.books[pair], o);
            PaidFor(Settle(s.users, pair, r.value).users, pair, x, Due(x, g), book.Orders(), r.value,
                    GainAll(g, r.value))
  {
    hide Add, Settle, GainAll, UniqueIds, LegalRun, After, Book.Valid, Settling, OwnLocks, BookInv, HoldsLock, Due,
      Improved, Spent, AllSolvent, BooksApart, LocksKnown;
    PendingBook(s, g, pair, o);
    OpenRemainders(s.books[pair]);
    var (book, r) := Add(s.books[pair], o);
    var live := s.books[pair].Orders() + {o};
    var discarded := AddSound(s.books[pair], o);
    LockLeft(s.users, pair, live, g, r.value, x);
    NewIsApart(s.books[pair], o);
    assert o.kind.Rests() || o.kind.FillOrKill? ==> discarded == {};
    forall y | y in discarded
      ensures y.id == o.id && x.id != o.id
    {
      SameTaker(y, o);
    }
    assert x.id in Ids(After(live, r.value)) ==> x.id in Ids(book.Orders());
  }

  /** What an executed order had locked is what is due for it. */
  lemma {:induction false} ExecutePaid(s: State, g: Gains, pair: TradingPair, o: Order)
    requires Inv(s, g, Entering(pair, o)) && o.remaining > 0 && ExecuteOn(s, pair, o).1.Traded?
    ensures var (s', r) := ExecuteOn(s, pair, o);
            && pair in s'.books
            && forall x :: x in s.books[pair].Orders() + {o} && (x != o || !o.kind.FillAndKill?) ==>
                 PaidFor(s'.users, pair, x, Due(x, g), s'.books[pair].Orders(), r.matches, ExecGains(g, o, r))
    ensures OthersSame(s.users, ExecuteOn(s, pair, o).0.users, Ids(s.books[pair].Orders() + {o}))
    ensures NoneNew(s.users, ExecuteOn(s, pair, o).0.users, o)
  {
    hide BookInv, BooksApart, LocksKnown, Add, Settle, GainAll, PaidFor, Due, Book.Valid, UniqueIds, AllBacked,
      OwnLocks, AllSolvent;
    var (s', r) := ExecuteOn(s, pair, o);
    var (book, added) := Add(s.books[pair], o);
    var users := Settle(s.users, pair, added.value).users;
    PendingBook(s, g, pair, o);
    NewIsApart(s.books[pair], o);
    ExecuteFrame(s, g, pair, o);
    forall x | x in s.books[pair].Orders() + {o} && (x != o || !o.kind.FillAndKill?)
      ensures PaidFor(s'.users, pair, x, Due(x, g), s'.books[pair].Orders(), r.matches, ExecGains(g, o, r))
    {
      SettledPaid(s, g, pair, o, x);
      if o.kind.FillAndKill? {
        StillPaid(users, o, pair, x, Due(x, g), book.Orders(), r.matches, GainAll(g, r.matches));
      }
    }
  }

  lemma {:induction false} ExecuteFrame(s: State, g: Gains, pair: TradingPair, o: Order)
    requires Inv(s, g, Entering(pair, o)) && o.remaining > 0 && ExecuteOn(s, pair, o).1.Traded?
    ensures OthersSame(s.users, ExecuteOn(s, pair, o).0.users, Ids(s.books[pair].Orders() + {o}))
    ensures NoneNew(s.users, ExecuteOn(s, pair, o).0.users, o)
  {
    hide BookInv, BooksApart, LocksKnown, Add, Settle, GainAll, After, LegalRun, UniqueIds, AllBacked, OwnLocks,
      AllSolvent, OnlyGainsLeft, Book.Valid, OthersSame, NoneNew, LocksOutside;
    var r := Add(s.books[pair], o).1;
    var discarded := ExecuteSettles(s, g, pair, o);
    OwnId(s.books[pair].Orders(), o);
    Unlocking(s.users, Settle(s.users, pair, r.value).users, o, Ids(s.books[pair].Orders() + {o}));
  }

  lemma {:induction false} Unlocking(users: map<UserId, Account>, users': map<UserId, Account>, o: Order,
                                     ids: set<OrderId>)
    requires LocksOutside(users, users', ids) && o.id in ids
    ensures OthersSame(users, users', ids) && OthersSame(users, UnlockFor(users', o.user, o.id), ids)
    ensures NoneNew(users, users', o) && NoneNew(users, UnlockFor(users', o.user, o.id), o)
  {
    var users2 := UnlockFor(users', o.user, o.id);
    forall u, i {:trigger SameLock(users[u], users2[u], i)} | u in users && i !in ids
      ensures SameLock(users[u], users2[u], i)
    {
      assert SameLock(users[u], users'[u], i);
    }
  }

  lemma {:induction false} OwnId(os: set<Order>, o: Order)
    ensures o.id in Ids(os + {o})
  {
    assert o in os + {o};
  }

  lemma {:induction false} StillPaid(users: map<UserId, Account>, o: Order, pair: TradingPair, x: Order, had: int,
                                     live': set<Order>, ms: seq<Match>, g': Gains)
    requires PaidFor(users, pair, x, had, live', ms, g') && x.id != o.id
    ensures PaidFor(UnlockFor(users, o.user, o.id), pair, x, had, live', ms, g' - {o.id})
  {
    hide Spent;
  }

  // ---- Placing an order ----

  /** Placing a new order under an unused id keeps the invariant. The only way to panic is the overflow of a
      credit; whenever nothing traded, by refusal or by `NoTrades`, nothing at all has changed. */
  lemma {:induction false} AddOrderLaw(s: State, g: Gains, pair: TradingPair, o: Order)
    requires Inv(s, g, Nothing) && Fresh(s, g, o.id) && AsNew(o)
    ensures var (s', r) := AddOrder(s, pair, o);
            && (r.Panicked? ==> r.fault == FillFailed(CreditOverflow))
            && (r.Traded? ==> Inv(s', ExecGains(g, o, r), Nothing))
            && (r.Traded? ==> LocksPaid(s, s', pair, o, r.matches, ExecGains(g, o, r)))
            && (r.Rejected? || r.NoTrades? ==> s' == s)
            && (r.NoTrades? ==> !o.kind.Rests())
  {
    hide Inv, Add, ExecuteOn, LockedFor, ExecGains, LocksPaid;
    var (s', r) := AddOrder(s, pair, o);
    var amount := LockAmount(o.side, o.price, o.initial);
    if ValidOrder(o.price, o.initial) && pair in s.books && amount.Some? && o.user in s.users
       && LockedFor(s.users[o.user], o.id, LockAsset(pair, o.side), amount.value).Some? {
      var locked := LockedFor(s.users[o.user], o.id, LockAsset(pair, o.side), amount.value);
      var s1 := s.(users := s.users[o.user := locked.value]);
      LockStep(s, g, pair, o, locked.value);
      ExecuteLaw(s1, g, pair, o);
      if r.Traded? {
        PlacingPaid(s, g, pair, o, locked.value);
      }
      if r.NoTrades? {
        NoTradesUndone(s, g, pair, o, locked.value);
        RestingTrades(s.books[pair], o);
        assert s' == State(s.books, s.users);
      }
    }
  }

  lemma {:induction false} PlacingPaid(s: State, g: Gains, pair: TradingPair, o: Order, a: Account)
    requires Inv(s, g, Nothing) && Locking(s, g, pair, o, a)
    requires var s1 := s.(users := s.users[o.user := a]);
             Inv(s1, g, Entering(pair, o)) && ExecuteOn(s1, pair, o).1.Traded?
    ensures var (s', r) := ExecuteOn(s.(users := s.users[o.user := a]), pair, o);
            LocksPaid(s, s', pair, o, r.matches, ExecGains(g, o, r))
  {
    hide Inv, ExecuteOn, ExecGains, PaidFor, LockedFor, SameLock, NoneNew;
    var s1 := s.(users := s.users[o.user := a]);
    LockFrame(s, g, pair, o, a, ExecuteOn(s1, pair, o).0.users);
    ExecuteLaw(s1, g, pair, o);
    ExecutePaid(s1, g, pair, o);
    forall x | x in s.books[pair].Orders() + {o}
      ensures Due(x, g) == Had(s, o, x)
    {
      DueIsHad(s, g, pair, o, x);
    }
  }

  lemma {:induction false} LockFrame(s: State, g: Gains, pair: TradingPair, o: Order, a: Account,
                                     users': map<UserId, Account>)
    requires Locking(s, g, pair, o, a)
    ensures var ids := Ids(s.books[pair].Orders() + {o});
            OthersSame(s.users[o.user := a], users', ids) ==> OthersSame(s.users, users', ids)
    ensures NoneNew(s.users[o.user := a], users', o) ==> NoneNew(s.users, users', o)
  {
    hide Ids;
    OwnId(s.books[pair].Orders(), o);
    var ids := Ids(s.books[pair].Orders() + {o});
    if OthersSame(s.users[o.user := a], users', ids) {
      forall u, id {:trigger SameLock(s.users[u], users'[u], id)} | u in s.users && id !in ids
        ensures SameLock(s.users[u], users'[u], id)
      {
        assert SameLock(s.users[o.user := a][u], users'[u], id);
      }
    }
  }

  lemma {:induction false} DueIsHad(s: State, g: Gains, pair: TradingPair, o: Order, x: Order)
    requires Inv(s, g, Nothing) && Fresh(s, g, o.id) && AsNew(o) && pair in s.books
    requires x in s.books[pair].Orders() + {o}
    ensures Due(x, g) == Had(s, o, x)
  {
    hide UniqueIds, AllSolvent, BooksApart, LocksKnown, Book.Valid, Sane;
    LiveNothing(s, pair);
    assert BookInv(s, g, Nothing, pair);
  }

  lemma {:induction false} RestingTrades(b: Book, o: Order)
    ensures o.kind.Rests() && o.id !in b.index ==> Add(b, o).1.Some?
  {
  }

  lemma {:induction false} NoTradesUndone(s: State, g: Gains, pair: TradingPair, o: Order, a: Account)
    requires Inv(s, g, Nothing) && Locking(s, g, pair, o, a)
    ensures UnlockFor(s.users[o.user := a], o.user, o.id) == s.users
  {
    hide BookInv, BooksApart, LocksKnown, Available, LockedSum;
    LockLaw(s.users[o.user], o.id, LockAsset(pair, o.side), LockAmount(o.side, o.price, o.initial).value);
  }

  /** The numbers of an order are not acceptable. */
  predicate BadNumbers(price: Price, quantity: Quantity) {
    price <= 0 || quantity == 0 || price * quantity > U32_MAX
  }

  /** What an order of these numbers ties up, in the asset it pays with. */
  function Worth(side: Side, price: Price, quantity: Quantity): int {
    if side.Buy? then price * quantity else quantity
  }

  /** What a user can still tie up of the asset that orders on `side` pay with. */
  ghost function Free(s: State, pair: TradingPair, side: Side, user: UserId): int
    requires user in s.users
  {
    var asset := if side.Buy? then pair.quote else pair.base;
    s.users[user].Balance(asset) - LockedSum(s.users[user].locks, asset)
  }

  lemma {:induction false} NumbersLaw(side: Side, price: Price, quantity: Quantity)
    ensures ValidOrder(price, quantity) <==> !BadNumbers(price, quantity)
    ensures !BadNumbers(price, quantity) ==> LockAmount(side, price, quantity) == Some(Worth(side, price, quantity))
  {
  }

  lemma {:induction false} FreeIsAvailable(s: State, pair: TradingPair, side: Side, user: UserId)
    requires AllSolvent(s.users) && user in s.users
    ensures Available(s.users[user], LockAsset(pair, side)) == Free(s, pair, side, user)
  {
    hide LockedSum;
    SolventAvailable(s.users[user], LockAsset(pair, side));
  }

  /** Which orders are refused, and why: bad numbers or an id in the book, an unknown pair, an unknown user, or less
      free than the order is worth; all others are taken. */
  lemma {:induction false} PlacingRefusals(s: State, g: Gains, pair: TradingPair, o: Order)
    requires Inv(s, g, Nothing)
    ensures var r := AddOrder(s, pair, o).1;
            var bad := BadNumbers(o.price, o.initial);
            var unused := pair in s.books && o.id !in s.books[pair].index;
            && (r == Rejected(InvalidOrder) <==> bad || (pair in s.books && !unused))
            && (r == Rejected(NoSuchPair) <==> !bad && pair !in s.books)
            && (r == Rejected(NoSuchUser) <==> !bad && unused && o.user !in s.users)
            && (r == Rejected(InsufficientBalance)
                <==> !bad && unused && o.user in s.users
                     && Worth(o.side, o.price, o.initial) > Free(s, pair, o.side, o.user))
  {
    hide BookInv, BooksApart, LocksKnown, ExecuteOn, ValidOrder, BadNumbers, Worth, Free, Available;
    NumbersLaw(o.side, o.price, o.initial);
    if o.user in s.users {
      FreeIsAvailable(s, pair, o.side, o.user);
    }
  }

  /** An order that is not refused answers that nothing traded exactly when it is a FAK no opposite price crosses, or
      a FOK that others do not offer enough for. */
  lemma {:induction false} NoTradesIff(s: State, pair: TradingPair, o: Order)
    requires AsNew(o) && !AddOrder(s, pair, o).1.Rejected?
    ensures pair in s.books
    ensures var b := s.books[pair];
            AddOrder(s, pair, o).1.NoTrades?
            <==> || (o.kind.FillAndKill? && forall p :: p in OppositeOf(b, o) ==>
                       if o.side.Buy? then p > o.price else p < o.price)
                 || (o.kind.FillOrKill? && Sum(Candidates(o, OppositeOf(b, o))) < o.initial)
  {
    hide Add, Settle, Available, Sum, Candidates, Fold, FoldTaker;
    assert o.remaining > 0 && o.id !in s.books[pair].index;
    if o.kind.Rests() {
      RestingTrades(s.books[pair], o);
    } else {
      TakerLaw(s.books[pair], o);
    }
  }

  /** When nothing traded, the engine is unchanged exactly if the user had no lock under the order's id
      before; an older lock under it is lost. */
  lemma {:induction false} NoTradesIsNoOp(s: State, pair: TradingPair, o: Order)
    requires (forall p :: p in s.books ==> s.books[p].Valid()) && o.remaining > 0
    requires AddOrder(s, pair, o).1.NoTrades?
    ensures AddOrder(s, pair, o).0 == s <==> o.id !in s.users[o.user].locks
  {
    hide Settle, Add, Available, Book.Valid, ValidOrder;
    var s' := AddOrder(s, pair, o).0;
    var a := s.users[o.user];
    var _ := AddSound(s.books[pair], o);
    assert s.books[pair := s.books[pair]] == s.books;
    assert s'.books == s.books && s'.users.Keys == s.users.Keys;
    assert s'.users[o.user] == a.(locks := a.locks - {o.id});
    assert forall u :: u in s.users && u != o.user ==> s'.users[u] == s.users[u];
    if o.id !in a.locks {
      assert a.locks - {o.id} == a.locks;
      assert s'.users == s.users;
    }
  }

  // ---- Cancelling ----

  /** Same users, and every book still there holds some of its old orders. */
  ghost predicate Shrunk(s: State, s': State) {
    && s'.users == s.users && s'.books.Keys <= s.books.Keys
    && (forall p :: p in s'.books ==> s'.books[p].Valid() && s'.books[p].Orders() <= s.books[p].Orders())
  }

  lemma {:induction false} ShrunkBooks(s: State, s': State, g: Gains)
    requires Inv(s, g, Nothing) && Shrunk(s, s')
    ensures (forall p :: p in s'.books ==> BookInv(s', g, Nothing, p)) && BooksApart(s', Nothing)
            && AllSolvent(s'.users)
  {
    hide BookInv, Solvent, Live, Book.Valid, Ids;
    forall p | p in s'.books
      ensures BookInv(s', g, Nothing, p) && Ids(Live(s', p, Nothing)) <= Ids(Live(s, p, Nothing))
    {
      ShrunkBook(s, s', g, p);
    }
  }

  lemma {:induction false} ShrunkBook(s: State, s': State, g: Gains, p: TradingPair)
    requires Shrunk(s, s') && p in s'.books && BookInv(s, g, Nothing, p)
    ensures BookInv(s', g, Nothing, p) && Ids(Live(s', p, Nothing)) <= Ids(Live(s, p, Nothing))
  {
    hide Backed, Sane, LevelsOk, UniqueIds, Book.Valid, Book.Orders, Live;
    ValidUnique(s'.books[p]);
    LiveNothing(s, p);
    LiveNothing(s', p);
  }

  /** What the index says about an order id under the invariant. */
  lemma {:induction false} IndexedOrder(s: State, g: Gains, pair: TradingPair, id: OrderId)
    requires Inv(s, g, Nothing) && pair in s.books && id in s.books[pair].index
    ensures var x := s.books[pair].index[id];
            && x.kind.Rests() && x.id == id
            && x.user in s.users && id in s.users[x.user].locks
            && s.users[x.user].locks[id].asset == LockAsset(pair, x.side)
            && (forall u :: u in s.users && id in s.users[u].locks ==> u == x.user)
            && id in Ids(s.books[pair].Orders())
  {
    hide UniqueIds, LevelsOk, Solvent, Sane;
    assert BookInv(s, g, Nothing, pair);
    var x := Indexed(s.books[pair], id);
    SameTaker(x, s.books[pair].index[id]);
    assert x.Fixed().kind == x.kind && s.books[pair].index[id].Fixed().kind == s.books[pair].index[id].kind;
    assert x in Live(s, pair, Nothing) && Backed(s.users, pair, x, g);
  }

  lemma {:induction false} CancelKeeps(s: State, g: Gains, pair: TradingPair, id: OrderId)
    requires Inv(s, g, Nothing) && pair in s.books && id in s.books[pair].index
    ensures var s' := State(s.books[pair := Cancel(s.books[pair], id).0],
                UnlockFor(s.users, s.books[pair].index[id].user, id));
            Inv(s', g - {id}, Nothing) && Fresh(s', g - {id}, id)
  {
    hide BookInv, Cancel, AllSolvent, Book.Valid;
    var s1 := s.(books := s.books[pair := Cancel(s.books[pair], id).0]);
    IndexedOrder(s, g, pair, id);
    forall p | p in s.books
      ensures s.books[p].Valid()
    {
      BookInvValid(s, g, Nothing, p);
    }
    CancelLaw(s.books[pair], id);
    ShrunkBooks(s, s1, g);
    CancelledLive(s, g, pair, id, s1);
    Release(s1, g, s.books[pair].index[id].user, id);
    forall p | p in s1.books
      ensures id !in s1.books[p].index
    {
      BookInvValid(s1, g, Nothing, p);
      LiveIds(s1, p);
    }
  }

  lemma {:induction false} CancelledLive(s: State, g: Gains, pair: TradingPair, id: OrderId, s1: State)
    requires Inv(s, g, Nothing) && pair in s.books && id in Ids(s.books[pair].Orders())
    requires s1.books.Keys == s.books.Keys && forall p :: p in s.books && p != pair ==> s1.books[p] == s.books[p]
    requires forall x :: x in s1.books[pair].Orders() <==> x in s.books[pair].Orders() && x.id != id
    ensures !LiveSomewhere(s1, Nothing, id)
    ensures forall i :: i != id && LiveSomewhere(s, Nothing, i) ==> LiveSomewhere(s1, Nothing, i)
  {
    hide BookInv, AllSolvent, LocksKnown;
    assert Live(s, pair, Nothing) == s.books[pair].Orders() && Live(s1, pair, Nothing) == s1.books[pair].Orders();
    forall p | p in s1.books
      ensures id !in Ids(Live(s1, p, Nothing))
    {
      assert p != pair ==> Live(s1, p, Nothing) == Live(s, p, Nothing);
    }
    forall i | i != id && LiveSomewhere(s, Nothing, i)
      ensures LiveSomewhere(s1, Nothing, i)
    {
      var p :| p in s.books && i in Ids(Live(s, p, Nothing));
      assert p != pair ==> Live(s1, p, Nothing) == Live(s, p, Nothing);
      var x :| x in Live(s, p, Nothing) && x.id == i;
      assert x in Live(s1, p, Nothing);
      assert i in Ids(Live(s1, p, Nothing));
    }
  }

  /** Cancelling removes the order and its lock and nothing else; afterwards its id is unused again. */
  lemma {:induction false} CancelOrderLaw(s: State, g: Gains, pair: TradingPair, id: OrderId)
    requires Inv(s, g, Nothing)
    ensures var (s', ok) := CancelOrder(s, pair, id);
            && (ok <==> pair in s.books && id in s.books[pair].index)
            && (!ok ==> s' == s)
            && (ok ==> Inv(s', g - {id}, Nothing) && Fresh(s', g - {id}, id))
            && (ok ==> s' == State(s.books[pair := Cancel(s.books[pair], id).0],
                   UnlockFor(s.users, s.books[pair].index[id].user, id)))
            && (ok ==>
                  && s'.books.Keys == s.books.Keys && s'.users.Keys == s.users.Keys
                  && (forall p :: p in s.books && p != pair ==> s'.books[p] == s.books[p])
                  && (forall x :: x in s'.books[pair].Orders() <==> x in s.books[pair].Orders() && x.id != id)
                  && (forall u :: u in s.users ==> s'.users[u] == s.users[u].(locks := s.users[u].locks - {id})))
  {
    hide Inv, Cancel, Book.Valid, Book.Orders;
    if pair in s.books {
      CancelledFlag(s, g, pair, id);
      if id in s.books[pair].index {
        CancelKeeps(s, g, pair, id);
        CancelEffect(s, g, pair, id);
      }
    }
  }

  /** The order goes, and its lock, which no one else holds. */
  lemma {:induction false} CancelEffect(s: State, g: Gains, pair: TradingPair, id: OrderId)
    requires Inv(s, g, Nothing) && pair in s.books && id in s.books[pair].index
    ensures forall x :: x in Cancel(s.books[pair], id).0.Orders() <==> x in s.books[pair].Orders() && x.id != id
    ensures var users' := UnlockFor(s.users, s.books[pair].index[id].user, id);
            && users'.Keys == s.users.Keys
            && forall u :: u in s.users ==> users'[u] == s.users[u].(locks := s.users[u].locks - {id})
  {
    hide BookInv, Cancel, AllSolvent, BooksApart, LocksKnown, Book.Valid, Book.Orders;
    BookInvValid(s, g, Nothing, pair);
    CancelLaw(s.books[pair], id);
    IndexedOrder(s, g, pair, id);
    forall u | u in s.users && u != s.books[pair].index[id].user
      ensures s.users[u] == s.users[u].(locks := s.users[u].locks - {id})
    {
      assert s.users[u].locks - {id} == s.users[u].locks;
    }
  }

  lemma {:induction false} CancelledFlag(s: State, g: Gains, pair: TradingPair, id: OrderId)
    requires Inv(s, g, Nothing) && pair in s.books
    ensures Cancel(s.books[pair], id).1 == if id in s.books[pair].index then Some(s.books[pair].index[id]) else None
  {
  }

  // ---- Modifying ----

  lemma {:induction false} IndexIsIn(s: State, g: Gains, pair: TradingPair, id: OrderId)
    requires Inv(s, g, Nothing) && pair in s.books && id in s.books[pair].index
    ensures var old' := s.books[pair].index[id];
            old'.user in s.users && Solvent(s.users[old'.user])
  {
    hide BookInv;
    IndexedOrder(s, g, pair, id);
  }

  /** The pre-check of a modify is exactly what its later lock needs: once it passes, locking the new amount
      after releasing the old succeeds. */
  lemma {:induction false} RelockSucceeds(a: Account, id: OrderId, asset: Asset, amount: Quantity)
    requires Solvent(a) && (id in a.locks ==> a.locks[id].asset == asset)
    ensures LockedFor(Unlocked(a, id), id, asset, amount).Some?
       <==> amount <= Available(a, asset) + (if id in a.locks then a.locks[id].amount else 0)
  {
    UnlockLaw(a, id);
    SolventAvailable(a, asset);
    SolventAvailable(Unlocked(a, id), asset);
  }

  /** Once its checks pass, a modify is a cancel followed by placing the replacement under the same id. */
  lemma {:induction false} ModifyIsCancelThenAdd(s: State, g: Gains, pair: TradingPair, m: OrderModify, now: Timestamp)
    requires Inv(s, g, Nothing) && ModifyRefused(s, pair, m) == None
    ensures var o := Replacement(s.books[pair].index[m.id], m, now);
            && ModifyOrder(s, pair, m, now) == AddOrder(CancelOrder(s, pair, m.id).0, pair, o)
            && CancelOrder(s, pair, m.id).1
            && !AddOrder(CancelOrder(s, pair, m.id).0, pair, o).1.Rejected?
            && o.kind.Rests() && o.id == m.id
            && o == Order(m.id, s.books[pair].index[m.id].kind, m.side, m.status, m.price, m.quantity, m.quantity, now,
                     m.user)
  {
    hide Inv, Cancel, ExecuteOn, Available, LockedFor, ValidOrder;
    var before := s.books[pair].index[m.id];
    CancelOrderLaw(s, g, pair, m.id);
    IndexIsIn(s, g, pair, m.id);
    IndexedOrder(s, g, pair, m.id);
    RelockSucceeds(s.users[before.user], m.id, LockAsset(pair, m.side), LockAmount(m.side, m.price, m.quantity).value);
  }

  /** The order a modify is about, if the request agrees with it. */
  predicate Known(s: State, pair: TradingPair, m: OrderModify) {
    && pair in s.books && m.id in s.books[pair].index
    && s.books[pair].index[m.id].user == m.user && s.books[pair].index[m.id].side == m.side
  }

  /** Which modifies are refused, and why. What the old order has locked counts as free: one is refused for funds
      exactly when the replacement would be, placed after cancelling the old order. */
  lemma {:induction false} ModifyRefusals(s: State, g: Gains, pair: TradingPair, m: OrderModify, now: Timestamp)
    requires Inv(s, g, Nothing)
    ensures var r := ModifyOrder(s, pair, m, now).1;
            var bad := BadNumbers(m.price, m.quantity);
            && (r == Rejected(InvalidOrder) <==> bad || (pair in s.books && !Known(s, pair, m)))
            && (r == Rejected(NoSuchPair) <==> !bad && pair !in s.books)
            && r != Rejected(NoSuchUser)
            && (Known(s, pair, m) ==>
                  && m.user in s.users && m.id in s.users[m.user].locks
                  && (r == Rejected(InsufficientBalance)
                      <==> !bad && Worth(m.side, m.price, m.quantity)
                                   > Free(s, pair, m.side, m.user) + s.users[m.user].locks[m.id].amount))
            && (r == Rejected(InsufficientBalance) ==> Known(s, pair, m))
  {
    hide BookInv, BooksApart, LocksKnown, ExecuteOn, ValidOrder, BadNumbers, Worth, Free, Available, Cancel, LockedFor;
    NumbersLaw(m.side, m.price, m.quantity);
    if Known(s, pair, m) {
      IndexedOrder(s, g, pair, m.id);
      FreeIsAvailable(s, pair, m.side, m.user);
      ModifyTaken(s, g, pair, m, now);
    }
  }

  /** Once its checks pass, a modify is not refused. */
  lemma {:induction false} ModifyTaken(s: State, g: Gains, pair: TradingPair, m: OrderModify, now: Timestamp)
    requires Inv(s, g, Nothing)
    ensures ModifyRefused(s, pair, m) == None ==> !ModifyOrder(s, pair, m, now).1.Rejected?
  {
    hide Inv, ModifyRefused, ModifyOrder, AddOrder, CancelOrder;
    if ModifyRefused(s, pair, m) == None {
      ModifyIsCancelThenAdd(s, g, pair, m, now);
    }
  }

  /** For a known order, a modify is refused exactly when placing the replacement after a cancel is. */
  lemma {:induction false} RefusedAlike(s: State, g: Gains, pair: TradingPair, m: OrderModify, now: Timestamp)
    requires Inv(s, g, Nothing) && Known(s, pair, m)
    ensures var before := s.books[pair].index[m.id];
            var o := Order(m.id, before.kind, m.side, m.status, m.price, m.quantity, m.quantity, now, m.user);
            ModifyOrder(s, pair, m, now).1.Rejected?
            <==> AddOrder(CancelOrder(s, pair, m.id).0, pair, o).1.Rejected?
  {
    hide Inv, ModifyRefused, ModifyOrder, AddOrder, CancelOrder, LockedSum, Fresh;
    var before := s.books[pair].index[m.id];
    var o := Order(m.id, before.kind, m.side, m.status, m.price, m.quantity, m.quantity, now, m.user);
    var s1 := CancelOrder(s, pair, m.id).0;
    CancelOrderLaw(s, g, pair, m.id);
    ModifyRefusals(s, g, pair, m, now);
    PlacingRefusals(s1, g - {m.id}, pair, o);
    FreshNotIndexed(s1, g - {m.id}, m.id, pair);
    FreedByCancel(s, g, pair, m);
    FourErrors(ModifyOrder(s, pair, m, now).1);
    FourErrors(AddOrder(s1, pair, o).1);
  }

  lemma {:induction false} FourErrors(r: Placed)
    ensures r.Rejected? <==> || r == Rejected(NoSuchPair) || r == Rejected(NoSuchUser)
                             || r == Rejected(InsufficientBalance) || r == Rejected(InvalidOrder)
  {
    if r.Rejected? {
      assert r.error.NoSuchPair? || r.error.NoSuchUser? || r.error.InsufficientBalance? || r.error.InvalidOrder?;
    }
  }

  lemma {:induction false} FreshNotIndexed(s: State, g: Gains, id: OrderId, pair: TradingPair)
    requires Fresh(s, g, id) && pair in s.books
    ensures id !in s.books[pair].index
  {
  }

  /** Cancelling frees what the order had locked. */
  lemma {:induction false} FreedByCancel(s: State, g: Gains, pair: TradingPair, m: OrderModify)
    requires Inv(s, g, Nothing) && Known(s, pair, m)
    ensures var s1 := CancelOrder(s, pair, m.id).0;
            && m.user in s.users && m.id in s.users[m.user].locks && m.user in s1.users && pair in s1.books
            && Free(s1, pair, m.side, m.user) == Free(s, pair, m.side, m.user) + s.users[m.user].locks[m.id].amount
  {
    hide BookInv, BooksApart, LocksKnown, Cancel, LockedSum;
    IndexedOrder(s, g, pair, m.id);
    CancelledFlag(s, g, pair, m.id);
    UnlockLaw(s.users[m.user], m.id);
  }

  /** A modify is refused before anything changes or goes through: it never answers `NoTrades`, never fails
      half-way, and panics on the overflow of a credit at most. One that goes through leaves the locks as placing
      the replacement after a cancel does. */
  lemma {:induction false} ModifyOrderLaw(s: State, g: Gains, pair: TradingPair, m: OrderModify, now: Timestamp)
    requires Inv(s, g, Nothing)
    ensures var (s', r) := ModifyOrder(s, pair, m, now);
            && (r.Rejected? <==> ModifyRefused(s, pair, m).Some?)
            && (r.Rejected? ==> s' == s)
            && !r.NoTrades?
            && (r.Panicked? ==> r.fault == FillFailed(CreditOverflow))
            && (r.Traded? ==> Inv(s', GainAll(g - {m.id}, r.matches), Nothing))
            && (r.Traded? ==>
                  && pair in s.books && m.id in s.books[pair].index
                  && LocksPaid(CancelOrder(s, pair, m.id).0, s', pair, Replacement(s.books[pair].index[m.id], m, now),
                               r.matches, GainAll(g - {m.id}, r.matches)))
  {
    hide Inv, AddOrder, CancelOrder, ModifyRefused, LocksPaid;
    if ModifyRefused(s, pair, m) == None {
      ModifyIsCancelThenAdd(s, g, pair, m, now);
      CancelOrderLaw(s, g, pair, m.id);
      AddOrderLaw(CancelOrder(s, pair, m.id).0, g - {m.id}, pair, Replacement(s.books[pair].index[m.id], m, now));
    } else {
      assert ModifyOrder(s, pair, m, now) == (s, Rejected(ModifyRefused(s, pair, m).value));
    }
  }

  // ---- Pairs, users, balances ----

  /** A new pair starts with no order, and nothing else changes. */
  lemma {:induction false} AddTradingPairLaw(s: State, g: Gains, pair: TradingPair)
    requires Inv(s, g, Nothing)
    ensures var s' := AddTradingPair(s, pair);
            && Inv(s', g, Nothing)
            && s'.users == s.users && s'.books.Keys == s.books.Keys + {pair}
            && (forall p :: p in s.books ==> s'.books[p] == s.books[p])
            && (pair !in s.books ==> s'.books[pair].Orders() == {} && s'.books[pair].index == map[])
  {
    hide BookInv, AllSolvent, Ids, LocksKnown, Live;
    var s' := AddTradingPair(s, pair);
    NoOrders();
    if pair !in s.books {
      forall p | p in s'.books
        ensures BookInv(s', g, Nothing, p)
        ensures Live(s', p, Nothing) == if p == pair then {} else Live(s, p, Nothing)
      {
        LiveNothing(s', p);
        if p == pair {
          EmptyBook(s', g, pair);
          NoOrders();
        } else {
          LiveNothing(s, p);
          SameBook(s, s', g, p);
        }
      }
      assert Ids({}) == {} by { NoIds(); }
      PairNewKnown(s, s', g);
    }
  }

  lemma {:induction false} PairNewKnown(s: State, s': State, g: Gains)
    requires LocksKnown(s, g, Nothing) && s'.users == s.users && s.books.Keys <= s'.books.Keys
    requires forall p :: p in s.books ==> Live(s', p, Nothing) == Live(s, p, Nothing)
    ensures LocksKnown(s', g, Nothing)
  {
    hide Ids, Live;
    forall u, id | u in s'.users && id in s'.users[u].locks
      ensures LiveSomewhere(s', Nothing, id) || s'.users[u].locks[id].amount == Gain(g, id)
    {
      if LiveSomewhere(s, Nothing, id) {
        var p :| p in s.books && id in Ids(Live(s, p, Nothing));
        assert id in Ids(Live(s', p, Nothing));
      }
    }
  }

  lemma {:induction false} NoOrders()
    ensures EMPTY_BOOK.Orders() == {}
  {
  }

  lemma {:induction false} NoIds()
    ensures Ids({}) == {}
  {
  }

  lemma {:induction false} EmptyBook(s: State, g: Gains, pair: TradingPair)
    requires pair in s.books && s.books[pair] == EMPTY_BOOK
    ensures BookInv(s, g, Nothing, pair) && Live(s, pair, Nothing) == {}
  {
    assert EMPTY_BOOK.Orders() == {};
  }

  lemma {:induction false} SameBook(s: State, s': State, g: Gains, p: TradingPair)
    requires p in s.books && p in s'.books && s'.books[p] == s.books[p] && s'.users == s.users
    ensures BookInv(s', g, Nothing, p) <==> BookInv(s, g, Nothing, p)
    ensures Live(s', p, Nothing) == Live(s, p, Nothing)
  {
  }

  /** Users whose locks are the same, balances aside. */
  ghost predicate SameLocks(users: map<UserId, Account>, users': map<UserId, Account>) {
    forall u :: u in users ==> u in users' && users'[u].locks == users[u].locks
  }

  /** What changes no book and no lock, and adds no lock, keeps the invariant if it keeps accounts solvent. */
  lemma {:induction false} BalancesOnly(s: State, s': State, g: Gains)
    requires Inv(s, g, Nothing) && s'.books == s.books && SameLocks(s.users, s'.users) && AllSolvent(s'.users)
    requires forall u :: u in s'.users && u !in s.users ==> s'.users[u].locks == map[]
    ensures Inv(s', g, Nothing)
  {
    hide UniqueIds, Solvent, Sane, Due, LevelsOk, Book.Valid, Live;
    forall p | p in s'.books
      ensures BookInv(s', g, Nothing, p) && Live(s', p, Nothing) == Live(s, p, Nothing)
    {
      assert BookInv(s, g, Nothing, p);
      SameLive(s, s', p, Nothing);
    }
    forall u, id | u in s'.users && id in s'.users[u].locks
      ensures LiveSomewhere(s', Nothing, id) || s'.users[u].locks[id].amount == Gain(g, id)
    {
      assert id in s.users[u].locks;
      SameBooksLive(s, s', id);
    }
  }

  /** A new user has nothing, and no one else notices. */
  lemma {:induction false} AddUserLaw(s: State, g: Gains, user: UserId)
    requires Inv(s, g, Nothing)
    ensures var s' := AddUser(s, user);
            && Inv(s', g, Nothing)
            && s'.books == s.books && s'.users.Keys == s.users.Keys + {user}
            && (forall u :: u in s.users ==> s'.users[u] == s.users[u])
            && (user !in s.users ==> s'.users[user].locks == map[] && forall a :: s'.users[user].Balance(a) == 0)
  {
    hide BookInv, BooksApart, LocksKnown;
    EmptySolvent();
    BalancesOnly(s, AddUser(s, user), g);
  }

  lemma {:induction false} EmptySolvent()
    ensures Solvent(EMPTY_ACCOUNT)
  {
  }

  /** Only the balance of `user` in `asset` differs, by `change`. */
  ghost predicate OneBalance(s: State, s': State, user: UserId, asset: Asset, change: int) {
    && s'.books == s.books && s'.users.Keys == s.users.Keys && SameLocks(s.users, s'.users)
    && forall u, a :: u in s.users ==>
         s'.users[u].Balance(a) == s.users[u].Balance(a) + (if u == user && a == asset then change else 0)
  }

  /** A deposit is refused for an unknown user or when the balance has no room for it, without change; otherwise it
      adds to that one balance. */
  lemma {:induction false} DepositLaw(s: State, g: Gains, user: UserId, asset: Asset, quantity: Quantity)
    requires Inv(s, g, Nothing)
    ensures var (s', r) := DepositBalance(s, user, asset, quantity);
            && Inv(s', g, Nothing) && (r.Some? ==> s' == s)
            && (r == Some(UnknownUser) <==> user !in s.users)
            && (r == Some(BalanceOverflow) <==> user in s.users && s.users[user].Balance(asset) + quantity > U32_MAX)
            && r != Some(InsufficientFunds)
            && (r == None ==> OneBalance(s, s', user, asset, quantity))
  {
    hide BookInv, BooksApart, LocksKnown, OneBalance, Solvent;
    DepositMoves(s, user, asset, quantity);
    BalancesOnly(s, DepositBalance(s, user, asset, quantity).0, g);
  }

  lemma {:induction false} DepositMoves(s: State, user: UserId, asset: Asset, quantity: Quantity)
    requires AllSolvent(s.users)
    ensures var (s', r) := DepositBalance(s, user, asset, quantity);
            AllSolvent(s'.users) && (r == None ==> OneBalance(s, s', user, asset, quantity))
  {
    hide LockedSum;
  }

  /** A withdrawal is refused for an unknown user or when less than that is free, without change; otherwise it takes
      from that one balance. */
  lemma {:induction false} WithdrawLaw(s: State, g: Gains, user: UserId, asset: Asset, quantity: Quantity)
    requires Inv(s, g, Nothing)
    ensures var (s', r) := WithdrawBalance(s, user, asset, quantity);
            && Inv(s', g, Nothing) && (r.Some? ==> s' == s)
            && (r == None <==>
                  user in s.users && quantity <= s.users[user].Balance(asset) - LockedSum(s.users[user].locks, asset))
            && (r == Some(UnknownUser) <==> user !in s.users) && r != Some(BalanceOverflow)
            && (r == None ==> OneBalance(s, s', user, asset, -(quantity as int)))
  {
    hide BookInv, BooksApart, LocksKnown, OneBalance, Solvent, LockedSum, Available;
    if user in s.users {
      SolventAvailable(s.users[user], asset);
    }
    WithdrawalMoves(s, user, asset, quantity);
    BalancesOnly(s, WithdrawBalance(s, user, asset, quantity).0, g);
  }

  lemma {:induction false} WithdrawalMoves(s: State, user: UserId, asset: Asset, quantity: Quantity)
    requires AllSolvent(s.users)
    ensures var (s', r) := WithdrawBalance(s, user, asset, quantity);
            AllSolvent(s'.users) && (r == None ==> OneBalance(s, s', user, asset, -(quantity as int)))
  {
    hide LockedSum, Withdrawn, Solvent;
    if user in s.users {
      WithdrawnLaw(s.users[user], asset, quantity);
    }
  }

  lemma {:induction false} WithdrawnLaw(a: Account, asset: Asset, quantity: Quantity)
    requires Solvent(a)
    ensures var r := Withdrawn(a, asset, quantity);
            r.Some? ==>
              && Solvent(r.value) && r.value.locks == a.locks
              && forall x :: r.value.Balance(x) == a.Balance(x) - (if x == asset then quantity else 0)
  {
    hide LockedSum;
    SolventAvailable(a, asset);
    var r := Withdrawn(a, asset, quantity);
    if r.Some? {
      forall x: Asset
        ensures LockedSum(r.value.locks, x) <= r.value.Balance(x)
      {
        assert LockedSum(a.locks, x) <= a.Balance(x);
      }
    }
  }

  // ---- Removing a pair ----

  /** Removing a pair releases exactly the locks of its resting orders; balances, other locks and other books
      stay as they are. */
  lemma {:induction false} RemoveTradingPairLaw(s: State, g: Gains, pair: TradingPair)
    requires Inv(s, g, Nothing)
    ensures var s' := RemoveTradingPair(s, pair);
            && Inv(s', g, Nothing)
            && s'.books == s.books - {pair} && s'.users.Keys == s.users.Keys
            && (pair in s.books ==> forall u :: u in s.users ==>
                  s'.users[u] == s.users[u].(locks := s.users[u].locks - Ids(s.books[pair].Orders())))
  {
    hide BookInv, AllSolvent, BooksApart, LocksKnown, Ids;
    if pair in s.books {
      ReleasedWithPair(s, g, pair);
      PairGoneBooks(s, g, pair);
      PairGoneKnown(s, g, pair);
    } else {
      assert s.books - {pair} == s.books;
    }
  }

  lemma {:induction false} ReleasedWithPair(s: State, g: Gains, pair: TradingPair)
    requires Inv(s, g, Nothing) && pair in s.books
    ensures var users' := RemoveTradingPair(s, pair).users;
            && AllSolvent(users') && LocksOutside(s.users, users', Ids(s.books[pair].Orders()))
            && forall u :: u in s.users ==>
                 users'[u] == s.users[u].(locks := s.users[u].locks - Ids(s.books[pair].Orders()))
  {
    hide BookInv, BooksApart, LocksKnown, Book.Valid, Ids, IdsOf, LockedSum;
    var index, ids := s.books[pair].index, Ids(s.books[pair].Orders());
    forall u | u in s.users
      ensures s.users[u].locks - IdsOf(index, u) == s.users[u].locks - ids
      ensures IdsOf(index, u) <= ids
      ensures Solvent(s.users[u].(locks := s.users[u].locks - IdsOf(index, u)))
    {
      OwnIds(s, g, pair, u);
      MinusSolvent(s.users[u], IdsOf(index, u));
    }
  }

  lemma {:induction false} OwnIds(s: State, g: Gains, pair: TradingPair, u: UserId)
    requires Inv(s, g, Nothing) && pair in s.books && u in s.users
    ensures var own, ids := IdsOf(s.books[pair].index, u), Ids(s.books[pair].Orders());
            own <= ids && s.users[u].locks - own == s.users[u].locks - ids
  {
    hide BookInv, BooksApart, LocksKnown, Ids, Solvent;
    BookInvValid(s, g, Nothing, pair);
    LiveIds(s, pair);
    forall id | id in s.users[u].locks && id in s.books[pair].index
      ensures id in IdsOf(s.books[pair].index, u)
    {
      IndexedOrder(s, g, pair, id);
    }
  }

  lemma {:induction false} MinusSolvent(a: Account, ids: set<OrderId>)
    requires Solvent(a)
    ensures Solvent(a.(locks := a.locks - ids))
  {
    forall x: Asset
      ensures LockedSum(a.locks - ids, x) <= a.Balance(x)
    {
      LockedSumMinus(a.locks, ids, x);
      assert LockedSum(a.locks, x) <= a.Balance(x);
    }
  }

  lemma {:induction false} PairGoneBooks(s: State, g: Gains, pair: TradingPair)
    requires Inv(s, g, Nothing) && pair in s.books
    requires LocksOutside(s.users, RemoveTradingPair(s, pair).users, Ids(s.books[pair].Orders()))
    ensures var s' := RemoveTradingPair(s, pair);
            (forall p :: p in s'.books ==> BookInv(s', g, Nothing, p)) && BooksApart(s', Nothing)
  {
    hide UniqueIds, Solvent, Sane, Backed, LevelsOk, Book.Valid;
    var s' := RemoveTradingPair(s, pair);
    assert Live(s, pair, Nothing) == s.books[pair].Orders();
    forall p | p in s'.books
      ensures BookInv(s', g, Nothing, p) && Live(s', p, Nothing) == Live(s, p, Nothing)
    {
      assert BookInv(s, g, Nothing, p);
      SameLive(s, s', p, Nothing);
      Framed(s.users, s'.users, p, Live(s, p, Nothing), Ids(s.books[pair].Orders()), g, g);
    }
  }

  lemma {:induction false} PairGoneKnown(s: State, g: Gains, pair: TradingPair)
    requires Inv(s, g, Nothing) && pair in s.books
    requires var users' := RemoveTradingPair(s, pair).users;
             forall u :: u in s.users ==> users'[u].locks == s.users[u].locks - Ids(s.books[pair].Orders())
    ensures LocksKnown(RemoveTradingPair(s, pair), g, Nothing)
  {
    hide BookInv, AllSolvent, BooksApart, Ids, Live, IdsOf, Book.Valid, UniqueIds;
    var s' := RemoveTradingPair(s, pair);
    LiveNothing(s, pair);
    forall u, id | u in s'.users && id in s'.users[u].locks
      ensures LiveSomewhere(s', Nothing, id) || s'.users[u].locks[id].amount == Gain(g, id)
    {
      assert id in s.users[u].locks;
      if LiveSomewhere(s, Nothing, id) {
        var p :| p in s.books && id in Ids(Live(s, p, Nothing));
        assert p in s'.books;
        SameLive(s, s', p, Nothing);
      }
    }
  }

  // ---- Removing a user ----

  /** Removing a user takes that user's orders out of every book, keeps every other order in queue order, and
      leaves every other account as it is. */
  lemma {:induction false} RemoveUserLaw(s: State, g: Gains, user: UserId)
    requires Inv(s, g, Nothing)
    ensures var s' := RemoveUser(s, user);
            && Inv(s', g, Nothing)
            && s'.users == s.users - {user} && s'.books.Keys == s.books.Keys
            && (forall p, x :: p in s.books ==>
                   (x in s'.books[p].Orders() <==> x in s.books[p].Orders() && x.user != user))
            && (forall p, side: Side, price :: p in s.books ==>
                  At(s'.books[p].Side(side), price) == Others(user, At(s.books[p].Side(side), price)))
  {
    hide BookInv, BooksApart, LocksKnown, Solvent, CancelUser, Book.Valid, At, Others;
    var s1 := s.(books := map p | p in s.books :: CancelUser(s.books[p], user));
    var s' := RemoveUser(s, user);
    forall p | p in s.books
      ensures s.books[p].Valid()
    {
      BookInvValid(s, g, Nothing, p);
    }
    forall p | p in s.books
      ensures s1.books[p].Valid() && s1.books[p].Orders() <= s.books[p].Orders()
      ensures forall x :: x in s1.books[p].Orders() <==> x in s.books[p].Orders() && x.user != user
      ensures forall side: Side, price ::
                At(s1.books[p].Side(side), price) == Others(user, At(s.books[p].Side(side), price))
    {
      CancelUserLaw(s.books[p], user);
    }
    ShrunkBooks(s, s1, g);
    UserGoneBooks(s1, g, user, s');
    UserGoneKnown(s, g, user, s');
  }

  lemma {:induction false} UserGoneBooks(s1: State, g: Gains, user: UserId, s': State)
    requires (forall p :: p in s1.books ==> BookInv(s1, g, Nothing, p)) && BooksApart(s1, Nothing)
    requires s'.books == s1.books && s'.users == s1.users - {user}
    requires forall p, x :: p in s1.books && x in s1.books[p].Orders() ==> x.user != user
    ensures (forall p :: p in s'.books ==> BookInv(s', g, Nothing, p)) && BooksApart(s', Nothing)
  {
    hide UniqueIds, Sane, Due, LevelsOk, Book.Valid;
    forall p | p in s'.books
      ensures BookInv(s', g, Nothing, p) && Live(s', p, Nothing) == Live(s1, p, Nothing)
    {
      assert BookInv(s1, g, Nothing, p) && Live(s1, p, Nothing) == s1.books[p].Orders();
      forall x | x in s1.books[p].Orders()
        ensures Sane(x) && Backed(s'.users, p, x, g)
      {
        assert Sane(x) && Backed(s1.users, p, x, g);
      }
    }
  }

  lemma {:induction false} UserGoneKnown(s: State, g: Gains, user: UserId, s': State)
    requires Inv(s, g, Nothing) && s'.books.Keys == s.books.Keys && s'.users == s.users - {user}
    requires forall p, x :: p in s.books ==> (x in s'.books[p].Orders() <==> x in s.books[p].Orders() && x.user != user)
    ensures LocksKnown(s', g, Nothing)
  {
    hide BookInv, Solvent, BooksApart;
    forall u, id | u in s'.users && id in s'.users[u].locks
      ensures LiveSomewhere(s', Nothing, id) || s'.users[u].locks[id].amount == Gain(g, id)
    {
      assert u in s.users && id in s.users[u].locks;
      if LiveSomewhere(s, Nothing, id) {
        var p, x := OwnerOf(s, g, u, id);
        assert x in Live(s', p, Nothing) && id in Ids(Live(s', p, Nothing));
      }
    }
  }

  /** The live order a user's lock belongs to. */
  lemma {:induction false} OwnerOf(s: State, g: Gains, u: UserId, id: OrderId) returns (p: TradingPair, x: Order)
    requires Inv(s, g, Nothing) && u in s.users && id in s.users[u].locks && LiveSomewhere(s, Nothing, id)
    ensures p in s.books && x in s.books[p].Orders() && x.id == id && x.user == u
  {
    hide UniqueIds, Sane, Backed, LevelsOk, Book.Valid, Solvent, BooksApart;
    p :| p in s.books && id in Ids(Live(s, p, Nothing));
    x :| x in Live(s, p, Nothing) && x.id == id;
    assert BookInv(s, g, Nothing, p);
  }
}
