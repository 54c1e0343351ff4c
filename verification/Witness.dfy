/** One small run of the engine: two users, one trade, and what it shows. */
module Witness {
  import opened Types
  import opened Levels
  import opened Matching
  import opened Soundness
  import opened Crossing
  import opened OrderBooks
  import opened BookLaws
  import opened Users
  import opened Engine
  import opened Runs
  import opened Replay
  import opened Ledger

  const PAIR := TradingPair(ETH, USDC)
  const SELL := Order(1, GoodTillCancel, Sell, Empty, 1, 1, 1, 0, 1)
  const BUY := Order(2, GoodTillCancel, Buy, Empty, 1, 1, 1, 0, 0)

  /** User 0 holds `q` ETH and a coin to buy one more with; user 1 holds one ETH. */
  function Opening(q: Quantity): seq<Command> {
    [NewUser(0), NewUser(1), AddPair(PAIR), Deposit(0, ETH, q), Deposit(0, USDC, 1), Deposit(1, ETH, 1)]
  }

  /** User 1 offers his ETH and user 0 takes it. */
  function Trading(q: Quantity): seq<Command> {
    Opening(q) + [PlaceOrder(PAIR, SELL)] + [PlaceOrder(PAIR, BUY)]
  }

  function Funded(q: Quantity): State {
    State(map[PAIR := EMPTY_BOOK],
          map[0 := Account(map[], map[ETH := q, USDC := 1]), 1 := Account(map[], map[ETH := 1])])
  }

  function Offered(q: Quantity): State {
    State(map[PAIR := Book(map[], map[1 := [SELL]], map[1 := SELL])],
          map[0 := Account(map[], map[ETH := q, USDC := 1]), 1 := Account(map[1 := LockEntry(ETH, 1)], map[ETH := 1])])
  }

  function Bought(q: Quantity): State
    requires q < U32_MAX
  {
    State(map[PAIR := EMPTY_BOOK],
          map[0 := Account(map[], map[ETH := q + 1, USDC := 1]), 1 := Account(map[], map[ETH := 1, USDC := 1])])
  }

  // ---- Step by step ----

  /** The state once the first `k` opening commands are carried out. */
  ghost function OpenedBy(q: Quantity, k: nat): State
    requires k <= |Opening(q)|
  {
    if k == 0 then NEW_ENGINE else Exec(OpenedBy(q, k - 1), Opening(q)[k - 1], 0).0
  }

  lemma {:induction false} TwoUsers(q: Quantity)
    ensures OpenedBy(q, 3) == State(map[PAIR := EMPTY_BOOK], map[0 := EMPTY_ACCOUNT, 1 := EMPTY_ACCOUNT])
  {
    hide AddOrder, ModifyOrder, CancelOrder, RemoveUser, RemoveTradingPair, DepositBalance, WithdrawBalance;
    assert OpenedBy(q, 1) == State(map[], map[0 := EMPTY_ACCOUNT]);
    assert OpenedBy(q, 2) == State(map[], map[0 := EMPTY_ACCOUNT, 1 := EMPTY_ACCOUNT]);
  }

  lemma {:induction false} Funding(q: Quantity)
    ensures OpenedBy(q, |Opening(q)|) == Funded(q)
  {
    hide AddOrder, ModifyOrder, CancelOrder, RemoveUser, RemoveTradingPair, AddTradingPair, AddUser, WithdrawBalance;
    TwoUsers(q);
    var books := map[PAIR := EMPTY_BOOK];
    assert OpenedBy(q, 4) == State(books, map[0 := Account(map[], map[ETH := q]), 1 := EMPTY_ACCOUNT]);
    assert OpenedBy(q, 5) == State(books, map[0 := Account(map[], map[ETH := q, USDC := 1]), 1 := EMPTY_ACCOUNT]);
  }

  lemma {:induction false} OpeningRuns(q: Quantity, k: nat, clock: nat -> Timestamp)
    requires k <= |Opening(q)|
    ensures var t := RunAll(START, Opening(q)[..k], clock); t.fault == None && t.state == OpenedBy(q, k)
    decreases k
  {
    hide RunAll, AddOrder, ModifyOrder;
    if k == 0 {
      NoCommands(q, clock);
    } else {
      OpeningRuns(q, k - 1, clock);
      assert Opening(q)[..k] == Opening(q)[..k - 1] + [Opening(q)[k - 1]];
      assert !Opening(q)[k - 1].PlaceOrder? && !Opening(q)[k - 1].Modifying?;
      Onwards(Opening(q)[..k - 1], Opening(q)[k - 1], clock);
    }
  }

  lemma {:induction false} NoCommands(q: Quantity, clock: nat -> Timestamp)
    ensures RunAll(START, Opening(q)[..0], clock) == START && START.fault == None && START.state == NEW_ENGINE
  {
  }

  /** After one more command. */
  lemma {:induction false} Onwards(cmds: seq<Command>, c: Command, clock: nat -> Timestamp)
    requires RunAll(START, cmds, clock).fault == None
    ensures var t, t' := RunAll(START, cmds, clock), RunAll(START, cmds + [c], clock);
            var (s', r) := Exec(t.state, c, clock(|t.replies|));
            && t'.replies == t.replies + [r]
            && (if r.Faulty() then t'.fault == Some(r.placed.fault) else t'.fault == None && t'.state == s')
  {
    hide RunAll, Exec;
    RunOneMore(START, cmds, c, clock);
  }

  lemma {:induction false} Offering(q: Quantity)
    ensures AddOrder(Funded(q), PAIR, SELL) == (Offered(q), Traded([]))
  {
    hide Clear;
    var s, a := Funded(q), Funded(q).users[1];
    assert LockedSum(a.locks, ETH) == 0;
    assert LockedFor(a, 1, ETH, 1) == Some(a.(locks := map[1 := LockEntry(ETH, 1)]));
    NothingToClear(Sell, Enter(SELL, map[]));
    assert [] + [SELL] == [SELL];
    assert Enter(SELL, map[]) == map[1 := [SELL]];
    assert FilledIds([]) == {} && map[1 := SELL] - {} == map[1 := SELL];
    assert Add(EMPTY_BOOK, SELL) == (Offered(q).books[PAIR], Some([]));
    assert s.books[PAIR := Offered(q).books[PAIR]] == Offered(q).books;
    assert s.users[1 := a.(locks := map[1 := LockEntry(ETH, 1)])] == Offered(q).users;
  }

  lemma {:induction false} NothingToClear(side: Side, same: LevelMap)
    ensures Clear(side, same, map[]) == ClearOut(same, map[], [])
  {
  }

  const SWAP := Match(BUY, SELL, 1, 1)

  lemma {:induction false} BothFilled()
    ensures Clear(Buy, map[1 := [BUY]], map[1 := [SELL]]) == ClearOut(map[], map[], [SWAP])
  {
    BestOfOne(Buy, 1, [BUY]);
    BestOfOne(Sell, 1, [SELL]);
    assert Duel(Buy, [BUY], [SELL], 1, 1, 1, 0) == DuelOut([], [], [SWAP], false);
    NothingToClear(Buy, map[]);
    assert [SWAP] + [] == [SWAP];
  }

  lemma {:induction false} Meeting(q: Quantity)
    ensures Add(Offered(q).books[PAIR], BUY) == (EMPTY_BOOK, Some([SWAP]))
  {
    hide Clear;
    BothFilled();
    assert [] + [BUY] == [BUY];
    assert Enter(BUY, map[]) == map[1 := [BUY]];
    assert FilledIds([SWAP]) == {1, 2} by {
      assert [SWAP][1..] == [];
    }
    assert map[1 := SELL][2 := BUY] - {1, 2} == map[];
  }

  lemma {:induction false} BuyerSide(q: Quantity)
    ensures AfterFill(Account(map[2 := LockEntry(USDC, 1)], map[ETH := q, USDC := 1]), 2, USDC, 1, ETH, 1)
         == if q == U32_MAX then FillResult(Account(map[], map[ETH := q, USDC := 1]), Some(CreditOverflow))
            else FillResult(Account(map[], map[ETH := q + 1, USDC := 1]), None)
  {
    assert map[2 := LockEntry(USDC, 1)] - {2} == map[];
  }

  lemma {:induction false} SellerSide()
    ensures AfterFill(Account(map[1 := LockEntry(ETH, 1)], map[ETH := 1]), 1, ETH, 1, USDC, 1)
         == FillResult(Account(map[], map[ETH := 1, USDC := 1]), None)
  {
    assert map[1 := LockEntry(ETH, 1)] - {1} == map[];
  }

  /** The coins move unless user 0's ETH is full. */
  lemma {:induction false} Settling(q: Quantity)
    ensures var users := Offered(q).users[0 := Account(map[2 := LockEntry(USDC, 1)], map[ETH := q, USDC := 1])];
            Settle(users, PAIR, [SWAP])
            == if q == U32_MAX then Settled.Fault(FillFailed(CreditOverflow)) else Settled.Settled(Bought(q).users)
  {
    hide AfterFill;
    var users := Offered(q).users[0 := Account(map[2 := LockEntry(USDC, 1)], map[ETH := q, USDC := 1])];
    assert [SWAP][1..] == [];
    BuyerSide(q);
    SellerSide();
    if q < U32_MAX {
      var buyer, seller := Account(map[], map[ETH := q + 1, USDC := 1]), Account(map[], map[ETH := 1, USDC := 1]);
      assert users[0 := buyer][1 := seller] == Bought(q).users;
    }
  }

  lemma {:induction false} Buying(q: Quantity)
    ensures AddOrder(Offered(q), PAIR, BUY).1
         == if q == U32_MAX then Panicked(FillFailed(CreditOverflow)) else Traded([SWAP])
    ensures q < U32_MAX ==> AddOrder(Offered(q), PAIR, BUY).0 == Bought(q)
  {
    hide Add, Settle;
    var s, a := Offered(q), Offered(q).users[0];
    assert LockedSum(a.locks, USDC) == 0;
    assert LockedFor(a, 2, USDC, 1) == Some(a.(locks := map[2 := LockEntry(USDC, 1)]));
    Meeting(q);
    Settling(q);
    assert s.books[PAIR := EMPTY_BOOK] == map[PAIR := EMPTY_BOOK];
  }

  // ---- The run is admissible ----

  function From(cmds: seq<Command>, from: nat): seq<Command> {
    if from <= |cmds| then cmds[from..] else []
  }

  lemma {:induction false} AdmissibleFrom(cmds: seq<Command>, from: nat, last: int)
    requires from < |cmds| && Admissible(cmds[from], last)
             && AllAdmissible(From(cmds, from + 1), NextLast(cmds[from], last))
    ensures AllAdmissible(From(cmds, from), last)
  {
    assert From(cmds, from)[1..] == From(cmds, from + 1);
  }

  lemma {:induction false} TradingAdmissible(q: Quantity)
    ensures AllAdmissible(Trading(q), -1)
  {
    hide AllAdmissible;
    var cmds := Trading(q);
    NothingAdmissible();
    AdmissibleFrom(cmds, 7, 1);
    AdmissibleFrom(cmds, 6, -1);
    AdmissibleFrom(cmds, 5, -1);
    AdmissibleFrom(cmds, 4, -1);
    AdmissibleFrom(cmds, 3, -1);
    AdmissibleFrom(cmds, 2, -1);
    AdmissibleFrom(cmds, 1, -1);
    AdmissibleFrom(cmds, 0, -1);
    assert From(cmds, 0) == cmds;
  }

  lemma {:induction false} NothingAdmissible()
    ensures AllAdmissible([], 2)
  {
  }

  // ---- What the run shows ----

  lemma {:induction false} LastSteps(q: Quantity, now: Timestamp)
    ensures Exec(Funded(q), PlaceOrder(PAIR, SELL), now) == (Offered(q), OrderPlaced(Traded([])))
    ensures var (s', r) := Exec(Offered(q), PlaceOrder(PAIR, BUY), now);
            if q == U32_MAX then r == OrderPlaced(Panicked(FillFailed(CreditOverflow)))
            else (s', r) == (Bought(q), OrderPlaced(Traded([SWAP])))
  {
    hide AddOrder;
    Offering(q);
    Buying(q);
  }

  lemma {:induction false} BeforeTheTrade(q: Quantity, clock: nat -> Timestamp)
    ensures var t := RunAll(START, Opening(q) + [PlaceOrder(PAIR, SELL)], clock);
            t.fault == None && t.state == Offered(q)
  {
    hide RunAll, Exec, OpenedBy, Opening, Funded, Offered;
    Funding(q);
    OpeningRuns(q, |Opening(q)|, clock);
    assert Opening(q)[..|Opening(q)|] == Opening(q);
    Onwards(Opening(q), PlaceOrder(PAIR, SELL), clock);
    LastSteps(q, clock(|RunAll(START, Opening(q), clock).replies|));
  }

  /** The panic is reachable: with user 0's ETH full, the admissible run ends in it. With less it does not. */
  lemma {:induction false} OverflowHappens(q: Quantity, clock: nat -> Timestamp)
    ensures AllAdmissible(Trading(q), -1)
    ensures RunAll(START, Trading(q), clock).fault == if q == U32_MAX then Some(FillFailed(CreditOverflow)) else None
  {
    hide RunAll, Exec, Opening, Offered, AllAdmissible;
    TradingAdmissible(q);
    BeforeTheTrade(q, clock);
    var before := Opening(q) + [PlaceOrder(PAIR, SELL)];
    Onwards(before, PlaceOrder(PAIR, BUY), clock);
    LastSteps(q, clock(|RunAll(START, before, clock).replies|));
  }

  /** Money out of nothing, in a run the engine can receive: user 0 has one more ETH and keeps the coin it cost,
      user 1 has the coin and keeps the ETH. Some total exceeds all that was ever deposited. */
  lemma {:induction false} ConservationFails(q: Quantity, clock: nat -> Timestamp)
    requires q < U32_MAX
    ensures AllAdmissible(Trading(q), -1)
    ensures var t := RunAll(START, Trading(q), clock);
            && t.fault == None && t.state == Bought(q)
            && !Conserved(t.state.users, Trading(q), clock)
  {
    hide RunAll, Exec, Opening, Offered, AllAdmissible, Conserved, Bought;
    OverflowHappens(q, clock);
    BeforeTheTrade(q, clock);
    var before := Opening(q) + [PlaceOrder(PAIR, SELL)];
    Onwards(before, PlaceOrder(PAIR, BUY), clock);
    LastSteps(q, clock(|RunAll(START, before, clock).replies|));
    var t := RunAll(START, Trading(q), clock);
    assert TradesSome(t.replies[|t.replies| - 1]) && TradesFrom(t.replies, 0);
    RunConservedIff(Trading(q), clock);
  }
}
