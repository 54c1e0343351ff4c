/** When placing an order takes the engine down. */
module Panics {
  import opened Types
  import opened Levels
  import opened Greedy
  import opened Soundness
  import opened Crossing
  import opened OrderBooks
  import opened BookLaws
  import opened Users
  import opened Engine
  import opened Settlement
  import opened EngineLaws
  import opened Spread
  import opened Overflow

  lemma {:induction false} SameBalancesOverflow(users: map<UserId, Account>, users': map<UserId, Account>,
                                                pair: TradingPair,
                                               ms: seq<Match>)
    requires users'.Keys == users.Keys && forall u :: u in users ==> users'[u].balances == users[u].balances
    ensures SomeOverflow(users', pair, ms) <==> SomeOverflow(users, pair, ms)
  {
    hide Credited;
    forall u: UserId, asset: Asset
      ensures Overflows(users', pair, ms, u, asset) <==> Overflows(users, pair, ms, u, asset)
    {
    }
  }

  /** In every reachable state, an order under an unused id that passes the checks panics the engine, once it has
      the ids for its trades, exactly when it trades and some party's balance has no room for what its trades
      credit in all. */
  lemma {:induction false} PlacingPanicsIff(s: State, g: Gains, pair: TradingPair, o: Order)
    requires Inv(s, g, Nothing) && Fresh(s, g, o.id) && AsNew(o) && !AddOrder(s, pair, o).1.Rejected?
    ensures pair in s.books
    ensures AddOrder(s, pair, o).1.Panicked?
       <==> Add(s.books[pair], o).1.Some? && SomeOverflow(s.users, pair, Add(s.books[pair], o).1.value)
  {
    hide Inv, Add, Settle, LockedSum, SomeOverflow, Book.Valid, UniqueIds, LegalRun, After, AllBacked, AllSolvent,
      OwnLocks;
    var asset, amount := LockAsset(pair, o.side), LockAmount(o.side, o.price, o.initial).value;
    var a := LockedFor(s.users[o.user], o.id, asset, amount).value;
    var s1 := s.(users := s.users[o.user := a]);
    LockStep(s, g, pair, o, a);
    PendingBook(s1, g, pair, o);
    var _ := AddSound(s.books[pair], o);
    var r := Add(s.books[pair], o).1;
    if r.Some? {
      PanicsIffOverflow(s1.users, pair, s.books[pair].Orders() + {o}, g, r.value);
      SameBalancesOverflow(s.users, s1.users, pair, r.value);
    }
  }

  lemma {:induction false} CancelKeepsBalances(s: State, pair: TradingPair, id: OrderId)
    ensures var s1 := CancelOrder(s, pair, id).0;
            && s1.users.Keys == s.users.Keys && s1.books.Keys == s.books.Keys
            && forall u :: u in s.users ==> s1.users[u].balances == s.users[u].balances
  {
    hide Cancel;
  }

  /** A modify that passes its checks panics the engine exactly when the replacement, placed in the book without
      the old order, trades and some party's balance has no room for the credits. */
  lemma {:induction false} ModifyPanicsIff(s: State, g: Gains, pair: TradingPair, m: OrderModify, now: Timestamp)
    requires Inv(s, g, Nothing) && ModifyRefused(s, pair, m) == None
    ensures pair in s.books && m.id in s.books[pair].index
    ensures var book, o := Cancel(s.books[pair], m.id).0, Replacement(s.books[pair].index[m.id], m, now);
            ModifyOrder(s, pair, m, now).1.Panicked?
            <==> Add(book, o).1.Some? && SomeOverflow(s.users, pair, Add(book, o).1.value)
  {
    hide Inv, Add, AddOrder, ModifyOrder, Cancel, SomeOverflow, Fresh, Available;
    var o, s1 := Replacement(s.books[pair].index[m.id], m, now), CancelOrder(s, pair, m.id).0;
    ModifyIsCancelThenAdd(s, g, pair, m, now);
    CancelOrderLaw(s, g, pair, m.id);
    PlacingPanicsIff(s1, g - {m.id}, pair, o);
    CancelKeepsBalances(s, pair, m.id);
    if Add(s1.books[pair], o).1.Some? {
      SameBalancesOverflow(s.users, s1.users, pair, Add(s1.books[pair], o).1.value);
    }
  }

  // ---- Told before the call ----

  /** The trades of an order, from the book as it is: the reference fold's, unless the order is a FOK that cannot
      be filled or a resting order that is blocked. */
  function Forecast(b: Book, o: Order): seq<Match> {
    var c := Candidates(o, OppositeOf(b, o));
    if o.kind.Rests() && Blocked(o, b.Side(o.side), OppositeOf(b, o)) then []
    else if o.kind.FillOrKill? && Sum(c) < o.remaining then []
    else Fold(o, c)
  }

  /** Right for FAK and FOK in any book, and for a resting order where crossings are between one user's orders. */
  lemma {:induction false} ForecastRight(b: Book, o: Order)
    requires b.Valid() && o.id !in b.index && o.remaining > 0 && (o.kind.Rests() ==> OnlySelf(b))
    ensures var r := Add(b, o).1; Forecast(b, o) == if r == None then [] else r.value
  {
    hide Add, Book.Valid, OnlySelf, Blocked, Fold, Sum;
    if o.kind.Rests() {
      RestingLaw(b, o);
    } else {
      TakerLaw(b, o);
      if o.kind.FillAndKill? && !CanMatch(b, o.side, o.price) {
        NoCandidates(b, o);
      }
    }
  }

  lemma {:induction false} NoCandidates(b: Book, o: Order)
    requires !CanMatch(b, o.side, o.price)
    ensures Fold(o, Candidates(o, OppositeOf(b, o))) == []
  {
  }

  /** Whether placing will panic can be read off book and balances beforehand. */
  lemma {:induction false} PlacingPanicForecast(s: State, g: Gains, pair: TradingPair, o: Order)
    requires Inv(s, g, Nothing) && Fresh(s, g, o.id) && AsNew(o) && !AddOrder(s, pair, o).1.Rejected?
    requires pair in s.books && o.kind.Rests() ==> OnlySelf(s.books[pair])
    ensures pair in s.books
    ensures AddOrder(s, pair, o).1.Panicked? <==> SomeOverflow(s.users, pair, Forecast(s.books[pair], o))
  {
    hide Inv, Add, AddOrder, SomeOverflow, OnlySelf, Book.Valid, Forecast;
    PlacingPanicsIff(s, g, pair, o);
    BooksPlaced(s, pair, o);
    BookOf(s, g, pair);
    ForecastRight(s.books[pair], o);
    NothingCredited(s.users, pair);
  }

  lemma {:induction false} ModifyPanicForecast(s: State, g: Gains, pair: TradingPair, m: OrderModify, now: Timestamp)
    requires Inv(s, g, Nothing) && ModifyRefused(s, pair, m) == None
    requires pair in s.books ==> OnlySelf(s.books[pair])
    ensures pair in s.books && m.id in s.books[pair].index
    ensures var book, o := Cancel(s.books[pair], m.id).0, Replacement(s.books[pair].index[m.id], m, now);
            ModifyOrder(s, pair, m, now).1.Panicked? <==> SomeOverflow(s.users, pair, Forecast(book, o))
  {
    hide Inv, Add, AddOrder, ModifyOrder, Cancel, SomeOverflow, OnlySelf, Book.Valid, Forecast, Fresh, Available;
    var o, s1 := Replacement(s.books[pair].index[m.id], m, now), CancelOrder(s, pair, m.id).0;
    ModifyPanicsIff(s, g, pair, m, now);
    ModifyIsCancelThenAdd(s, g, pair, m, now);
    CancelOrderLaw(s, g, pair, m.id);
    BookOf(s, g, pair);
    BookOf(s1, g - {m.id}, pair);
    BooksPlaced(s1, pair, o);
    CancelLaw(s.books[pair], m.id);
    FewerOnlySelf(s.books[pair], s1.books[pair]);
    ForecastRight(s1.books[pair], o);
    NothingCredited(s.users, pair);
  }
}
