/** Depth refreshes per pair: at once when idle, otherwise one trailing refresh at the end of the interval. */
module Throttle {
  import opened Types

  type Pair = string
  /** A reading of the monotonic clock. */
  type Time = int

  /** `lastFired` is `None` for Go's zero time; `timer` is the deadline of the timer the field points to. */
  datatype PairState = PairState(lastFired: Option<Time>, timer: Option<Time>, dirty: bool)

  const IDLE := PairState(None, None, false)

  datatype Note = Asked(pair: Pair, time: Time) | Fired(pair: Pair, time: Time)

  /** A timer the runtime has started and not yet run, whatever the pair's field says. */
  datatype Running = Running(pair: Pair, deadline: Time)

  /** What is kept per pair, the timers running, and what happened so far. */
  datatype History = History(states: map<Pair, PairState>, running: multiset<Running>, notes: seq<Note>)
  {
    function Of(pair: Pair): PairState {
      if pair in states then states[pair] else IDLE
    }
  }

  datatype Event = Request(pair: Pair, now: Time) | Callback(pair: Pair, deadline: Time, now: Time)

  /** Any running timer may run its callback, at its deadline or later, never earlier. */
  predicate Enabled(h: History, e: Event) {
    e.Callback? ==> Running(e.pair, e.deadline) in h.running && e.now >= e.deadline
  }

  function Max(a: int, b: int): int {
    if a >= b then a else b
  }

  function Requested(interval: int, h: History, pair: Pair, now: Time): History {
    var st, notes := h.Of(pair), h.notes + [Asked(pair, now)];
    if st.timer == None && (st.lastFired == None || now - st.lastFired.value >= interval) then
      History(h.states[pair := st.(lastFired := Some(now))], h.running, notes + [Fired(pair, now)])
    else
      var since := if st.lastFired == None then interval else now - st.lastFired.value;
      var deadline := if st.timer == None then now + Max(interval - since, 0) else st.timer.value;
      var started := if st.timer == None then multiset{Running(pair, deadline)} else multiset{};
      History(h.states[pair := st.(dirty := true, timer := Some(deadline))], h.running + started, notes)
  }

  function CalledBack(h: History, pair: Pair, deadline: Time, now: Time): History {
    History(h.states[pair := PairState(Some(now), None, false)], h.running - multiset{Running(pair, deadline)},
            h.notes + if h.Of(pair).dirty then [Fired(pair, now)] else [])
  }

  function Next(interval: int, h: History, e: Event): History {
    match e
    case Request(pair, now) => Requested(interval, h, pair, now)
    case Callback(pair, deadline, now) => CalledBack(h, pair, deadline, now)
  }

  // ---- What is promised ----

  /** Refreshes of a pair keep their distance. */
  ghost predicate Spaced(interval: int, notes: seq<Note>) {
    forall i, j :: 0 <= i < j < |notes| && notes[i].Fired? && notes[j].Fired? && notes[i].pair == notes[j].pair ==>
      notes[j].time - notes[i].time >= interval
  }

  /** The request noted at `i` has been followed by a refresh no earlier than it. */
  ghost predicate Served(notes: seq<Note>, i: nat)
    requires i < |notes|
  {
    exists j :: i < j < |notes| && notes[j] == Fired(notes[i].pair, notes[j].time) && notes[j].time >= notes[i].time
  }

  /** Its refresh is due: a timer is armed that ends at most one interval after it. */
  ghost predicate Due(interval: int, h: History, i: nat)
    requires i < |h.notes|
  {
    h.Of(h.notes[i].pair).timer.Some? && h.Of(h.notes[i].pair).timer.value <= h.notes[i].time + interval
  }

  /** A pending request and an armed timer go together; the timer ends one interval after the last refresh. */
  predicate Armed(interval: int, st: PairState) {
    && (st.timer.Some? <==> st.dirty)
    && (st.timer.Some? ==> st.lastFired.Some? && st.timer.value == st.lastFired.value + interval)
  }

  /** Every request noted so far is served or due. */
  ghost predicate NoneLost(interval: int, h: History) {
    forall i :: 0 <= i < |h.notes| && h.notes[i].Asked? ==> Served(h.notes, i) || Due(interval, h, i)
  }

  /** The timers running are exactly those the fields point to, each once. */
  ghost predicate OneTimer(h: History) {
    forall pair, deadline :: h.running[Running(pair, deadline)] == if h.Of(pair).timer == Some(deadline) then 1 else 0
  }

  ghost predicate Promises(interval: int, h: History) {
    && OneTimer(h)
    && (forall pair :: pair in h.states ==> Armed(interval, h.states[pair]))
    && Spaced(interval, h.notes)
    && NoneLost(interval, h)
  }

  // ---- Why it holds ----

  /** Nothing is noted after `now`; all refreshes of a pair lie at or before its `lastFired`. */
  ghost predicate Timed(h: History, now: Time) {
    && (forall i :: 0 <= i < |h.notes| ==> h.notes[i].time <= now)
    && (forall pair :: pair in h.states && h.states[pair].lastFired.Some? ==> h.states[pair].lastFired.value <= now)
    && (forall i :: 0 <= i < |h.notes| && h.notes[i].Fired? ==>
          h.Of(h.notes[i].pair).lastFired.Some? && h.notes[i].time <= h.Of(h.notes[i].pair).lastFired.value)
  }

  ghost predicate Inv(interval: int, h: History, now: Time) {
    interval >= 0 && Promises(interval, h) && Timed(h, now)
  }

  lemma {:induction false} ServedStays(notes: seq<Note>, n: Note, i: nat)
    requires i < |notes| && Served(notes, i)
    ensures Served(notes + [n], i)
  {
    var j :| i < j < |notes| && notes[j] == Fired(notes[i].pair, notes[j].time) && notes[j].time >= notes[i].time;
    assert (notes + [n])[j] == notes[j] && (notes + [n])[i] == notes[i];
  }

  lemma {:induction false} NowServed(notes: seq<Note>, pair: Pair, now: Time, i: nat)
    requires i < |notes| && notes[i].pair == pair && notes[i].time <= now
    ensures Served(notes + [Fired(pair, now)], i)
  {
    var all := notes + [Fired(pair, now)];
    assert all[|notes|] == Fired(pair, now) && all[i] == notes[i];
  }

  lemma {:induction false} SpacedMore(interval: int, notes: seq<Note>, n: Note)
    requires Spaced(interval, notes)
    requires n.Fired? ==> forall i :: 0 <= i < |notes| && notes[i].Fired? && notes[i].pair == n.pair ==>
               n.time - notes[i].time >= interval
    ensures Spaced(interval, notes + [n])
  {
  }

  /** What a history keeps when the refresh of `pair` is noted and its state reset. */
  function WithFire(h: History, pair: Pair, now: Time): History {
    History(h.states[pair := PairState(Some(now), None, false)], h.running, h.notes + [Fired(pair, now)])
  }

  function WithAsk(h: History, pair: Pair, now: Time, st: PairState): History {
    History(h.states[pair := st], h.running, h.notes + [Asked(pair, now)])
  }

  /** Requests of other pairs are served or due. */
  ghost predicate OthersNotLost(interval: int, h: History, pair: Pair) {
    forall i :: 0 <= i < |h.notes| && h.notes[i].Asked? && h.notes[i].pair != pair ==>
        Served(h.notes, i) || Due(interval, h, i)
  }

  lemma {:induction false} FireServes(interval: int, h: History, pair: Pair, now: Time)
    requires OthersNotLost(interval, h, pair) && forall i :: 0 <= i < |h.notes| ==> h.notes[i].time <= now
    ensures NoneLost(interval, WithFire(h, pair, now))
  {
    var h' := WithFire(h, pair, now);
    forall i | 0 <= i < |h'.notes| && h'.notes[i].Asked?
      ensures Served(h'.notes, i) || Due(interval, h', i)
    {
      assert h'.notes[i] == h.notes[i];
      if h.notes[i].pair == pair {
        NowServed(h.notes, pair, now, i);
      } else if Served(h.notes, i) {
        ServedStays(h.notes, Fired(pair, now), i);
      }
    }
  }

  /** A refresh at least an interval after the pair's last one restores everything. */
  lemma {:induction false} FireLaw(interval: int, h: History, pair: Pair, now: Time)
    requires interval >= 0 && Timed(h, now) && Spaced(interval, h.notes) && OthersNotLost(interval, h, pair)
    requires forall p :: p in h.states && p != pair ==> Armed(interval, h.states[p])
    requires h.Of(pair).lastFired.Some? ==> now - h.Of(pair).lastFired.value >= interval
    requires OneTimer(WithFire(h, pair, now))
    ensures Inv(interval, WithFire(h, pair, now), now)
  {
    hide OneTimer;
    FireServes(interval, h, pair, now);
    SpacedMore(interval, h.notes, Fired(pair, now));
  }

  lemma {:induction false} AskWaits(interval: int, h: History, pair: Pair, now: Time, st: PairState)
    requires NoneLost(interval, h) && st.timer.Some? && st.timer.value <= now + interval
    requires h.Of(pair).timer == None || h.Of(pair).timer == st.timer
    ensures NoneLost(interval, WithAsk(h, pair, now, st))
  {
    var h' := WithAsk(h, pair, now, st);
    forall i | 0 <= i < |h'.notes| && h'.notes[i].Asked?
      ensures Served(h'.notes, i) || Due(interval, h', i)
    {
      if i < |h.notes| {
        assert h'.notes[i] == h.notes[i];
        if Served(h.notes, i) {
          ServedStays(h.notes, Asked(pair, now), i);
        }
      }
    }
  }

  lemma {:induction false} AskOthers(interval: int, h: History, pair: Pair, now: Time)
    requires NoneLost(interval, h)
    ensures OthersNotLost(interval, h.(notes := h.notes + [Asked(pair, now)]), pair)
  {
    var notes := h.notes + [Asked(pair, now)];
    forall i | 0 <= i < |notes| && notes[i].Asked? && notes[i].pair != pair
      ensures Served(notes, i) || Due(interval, h.(notes := notes), i)
    {
      assert notes[i] == h.notes[i];
      if Served(h.notes, i) {
        ServedStays(h.notes, Asked(pair, now), i);
      }
    }
  }

  /** What is promised of requests does not look at the running timers. */
  lemma {:induction false} OnlyTimers(interval: int, h: History, h': History, pair: Pair)
    requires h'.states == h.states && h'.notes == h.notes
    ensures NoneLost(interval, h') <==> NoneLost(interval, h)
    ensures NoneLost(interval, h) ==> OthersNotLost(interval, h', pair)
  {
    forall i | 0 <= i < |h.notes|
      ensures Due(interval, h', i) <==> Due(interval, h, i)
    {
    }
  }

  lemma {:induction false} SameTimers(h: History, h': History)
    requires OneTimer(h) && h'.running == h.running && forall p :: h'.Of(p).timer == h.Of(p).timer
    ensures OneTimer(h')
  {
  }

  /** A pair that was not armed gets its one timer; an armed one keeps it. */
  lemma {:induction false} TimerStarted(h: History, h': History, pair: Pair, deadline: Time)
    requires OneTimer(h) && h'.Of(pair).timer == Some(deadline)
             && (h.Of(pair).timer.Some? ==> h.Of(pair).timer == Some(deadline))
    requires h'.running == h.running + if h.Of(pair).timer == None then multiset{Running(pair, deadline)}
                                       else multiset{}
    requires forall p :: p != pair ==> h'.Of(p).timer == h.Of(p).timer
    ensures OneTimer(h')
  {
  }

  /** The one timer that ran was the one the field points to. */
  lemma {:induction false} TimerRan(h: History, h': History, pair: Pair, deadline: Time)
    requires OneTimer(h) && Running(pair, deadline) in h.running && h'.Of(pair).timer == None
    requires h'.running == h.running - multiset{Running(pair, deadline)}
    requires forall p :: p != pair ==> h'.Of(p).timer == h.Of(p).timer
    ensures h.Of(pair).timer == Some(deadline) && OneTimer(h')
  {
    assert h.running[Running(pair, deadline)] > 0;
  }

  lemma {:induction false} RequestLaw(interval: int, h: History, pair: Pair, last: Time, now: Time)
    requires Inv(interval, h, last) && last <= now
    ensures Inv(interval, Requested(interval, h, pair, now), now)
  {
    hide NoneLost, OthersNotLost, Spaced, OneTimer;
    var st := h.Of(pair);
    if st.timer == None && (st.lastFired == None || now - st.lastFired.value >= interval) {
      var asked := h.(notes := h.notes + [Asked(pair, now)]);
      AskOthers(interval, h, pair, now);
      SpacedMore(interval, h.notes, Asked(pair, now));
      AskTimed(h, pair, now, st);
      SameTimers(h, WithFire(asked, pair, now));
      FireLaw(interval, asked, pair, now);
    } else {
      var deadline := if st.timer == None then now + Max(interval - (now - st.lastFired.value), 0) else st.timer.value;
      var st' := st.(dirty := true, timer := Some(deadline));
      TimerStarted(h, Requested(interval, h, pair, now), pair, deadline);
      assert Armed(interval, st');
      AskWaits(interval, h, pair, now, st');
      OnlyTimers(interval, WithAsk(h, pair, now, st'), Requested(interval, h, pair, now), pair);
      SpacedMore(interval, h.notes, Asked(pair, now));
      AskTimed(h, pair, now, st');
    }
  }

  lemma {:induction false} AskTimed(h: History, pair: Pair, now: Time, st: PairState)
    requires (exists last :: last <= now && Timed(h, last)) && st.lastFired == h.Of(pair).lastFired
    ensures Timed(WithAsk(h, pair, now, st), now) && Timed(h.(notes := h.notes + [Asked(pair, now)]), now)
  {
    var last :| last <= now && Timed(h, last);
    var h' := WithAsk(h, pair, now, st);
    forall i | 0 <= i < |h'.notes|
      ensures h'.notes[i].time <= now
      ensures h'.notes[i].Fired? ==>
                h'.Of(h'.notes[i].pair).lastFired.Some? && h'.notes[i].time <= h'.Of(h'.notes[i].pair).lastFired.value
    {
      assert i < |h.notes| ==> h'.notes[i] == h.notes[i];
    }
  }

  lemma {:induction false} CallbackLaw(interval: int, h: History, pair: Pair, deadline: Time, last: Time, now: Time)
    requires Inv(interval, h, last) && last <= now && Enabled(h, Callback(pair, deadline, now))
    ensures Inv(interval, CalledBack(h, pair, deadline, now), now)
  {
    hide Spaced, Served, Due, OneTimer;
    TimerRan(h, CalledBack(h, pair, deadline, now), pair, deadline);
    assert Armed(interval, h.Of(pair));
    var ran := h.(running := h.running - multiset{Running(pair, deadline)});
    OnlyTimers(interval, h, ran, pair);
    FireLaw(interval, ran, pair, now);
  }

  // ---- No refresh without a request ----

  ghost predicate NoneBetween(notes: seq<Note>, i: nat, j: nat)
    requires i < j <= |notes|
  {
    forall k :: i < k < j ==> !(notes[k].Fired? && notes[k].pair == notes[i].pair)
  }

  /** The request at `i` calls for a refresh at `j`: the pair has had none in between. */
  ghost predicate CallsFor(notes: seq<Note>, i: nat, pair: Pair, j: nat)
    requires i < j <= |notes|
  {
    notes[i].Asked? && notes[i].pair == pair && NoneBetween(notes, i, j)
  }

  ghost predicate Wanted(notes: seq<Note>, pair: Pair, j: nat)
    requires j <= |notes|
  {
    exists i :: 0 <= i < j && CallsFor(notes, i, pair, j)
  }

  /** Every refresh so far was asked for. */
  ghost predicate AllWanted(notes: seq<Note>) {
    forall j :: 0 <= j < |notes| && notes[j].Fired? ==> Wanted(notes, notes[j].pair, j)
  }

  /** The mark stands for a request without a refresh since, and `lastFired` for the time of a refresh. */
  ghost predicate Meant(h: History, pair: Pair, st: PairState) {
    && (st.dirty ==> Wanted(h.notes, pair, |h.notes|))
    && (st.lastFired.Some? ==> Fired(pair, st.lastFired.value) in h.notes)
  }

  ghost predicate Justified(h: History) {
    AllWanted(h.notes) && forall pair :: pair in h.states ==> Meant(h, pair, h.states[pair])
  }

  lemma {:induction false} WantedStays(notes: seq<Note>, n: Note, pair: Pair, j: nat)
    requires j <= |notes| && Wanted(notes, pair, j)
    ensures Wanted(notes + [n], pair, j)
    ensures j == |notes| && !(n.Fired? && n.pair == pair) ==> Wanted(notes + [n], pair, j + 1)
  {
    var all := notes + [n];
    var i :| 0 <= i < j && CallsFor(notes, i, pair, j);
    assert forall k :: 0 <= k < |notes| ==> all[k] == notes[k];
    assert CallsFor(all, i, pair, j);
    if j == |notes| && !(n.Fired? && n.pair == pair) {
      assert CallsFor(all, i, pair, j + 1);
    }
  }

  lemma {:induction false} NowWanted(notes: seq<Note>, pair: Pair, now: Time)
    ensures Wanted(notes + [Asked(pair, now)], pair, |notes| + 1)
  {
    assert CallsFor(notes + [Asked(pair, now)], |notes|, pair, |notes| + 1);
  }

  lemma {:induction false} AllWantedMore(notes: seq<Note>, n: Note)
    requires AllWanted(notes) && (n.Fired? ==> Wanted(notes, n.pair, |notes|))
    ensures AllWanted(notes + [n])
  {
    var all := notes + [n];
    forall j | 0 <= j < |all| && all[j].Fired?
      ensures Wanted(all, all[j].pair, j)
    {
      WantedStays(notes, n, all[j].pair, j);
    }
  }

  lemma {:induction false} JustifiedAsk(h: History, pair: Pair, now: Time, st: PairState)
    requires Justified(h) && st.lastFired == h.Of(pair).lastFired
    ensures Justified(WithAsk(h, pair, now, st)) && Wanted(WithAsk(h, pair, now, st).notes, pair, |h.notes| + 1)
  {
    hide Wanted;
    var h' := WithAsk(h, pair, now, st);
    AllWantedMore(h.notes, Asked(pair, now));
    NowWanted(h.notes, pair, now);
    forall p | p in h'.states
      ensures Meant(h', p, h'.states[p])
    {
      if p != pair {
        assert Meant(h, p, h.states[p]);
        if h.states[p].dirty {
          WantedStays(h.notes, Asked(pair, now), p, |h.notes|);
        }
      }
    }
  }

  lemma {:induction false} JustifiedFire(h: History, pair: Pair, now: Time)
    requires Justified(h) && Wanted(h.notes, pair, |h.notes|)
    ensures Justified(WithFire(h, pair, now))
  {
    hide Wanted;
    var h' := WithFire(h, pair, now);
    AllWantedMore(h.notes, Fired(pair, now));
    forall p | p in h'.states
      ensures Meant(h', p, h'.states[p])
    {
      if p != pair {
        assert Meant(h, p, h.states[p]);
        if h.states[p].dirty {
          WantedStays(h.notes, Fired(pair, now), p, |h.notes|);
        }
      }
    }
  }

  lemma {:induction false} SameMeaning(h: History, h': History)
    requires h'.states == h.states && h'.notes == h.notes
    ensures Justified(h') <==> Justified(h)
  {
    hide Wanted;
    assert forall p :: p in h.states ==> (Meant(h', p, h.states[p]) <==> Meant(h, p, h.states[p]));
  }

  lemma {:induction false} RequestJustified(interval: int, h: History, pair: Pair, last: Time, now: Time)
    requires Inv(interval, h, last) && last <= now && Justified(h)
    ensures Justified(Requested(interval, h, pair, now))
  {
    hide Wanted, Justified, Spaced, NoneLost, OneTimer, Timed;
    var st, h' := h.Of(pair), Requested(interval, h, pair, now);
    if st.timer == None && (st.lastFired == None || now - st.lastFired.value >= interval) {
      var asked := WithAsk(h, pair, now, st);
      JustifiedAsk(h, pair, now, st);
      JustifiedFire(asked, pair, now);
      assert asked.notes + [Fired(pair, now)] == h'.notes;
      assert asked.states[pair := PairState(Some(now), None, false)] == h'.states;
      SameMeaning(WithFire(asked, pair, now), h');
    } else {
      var st' := h'.states[pair];
      JustifiedAsk(h, pair, now, st');
      SameMeaning(WithAsk(h, pair, now, st'), h');
    }
  }

  lemma {:induction false} CallbackJustified(interval: int, h: History, pair: Pair, deadline: Time, last: Time,
                                             now: Time)
    requires Inv(interval, h, last) && Justified(h) && Enabled(h, Callback(pair, deadline, now))
    ensures Justified(CalledBack(h, pair, deadline, now))
  {
    hide Wanted, Spaced, NoneLost, Timed;
    assert h.running[Running(pair, deadline)] > 0;
    assert Armed(interval, h.Of(pair)) && Meant(h, pair, h.Of(pair));
    JustifiedFire(h, pair, now);
    SameMeaning(WithFire(h, pair, now), CalledBack(h, pair, deadline, now));
  }

  lemma {:induction false} AtOnceHere(interval: int, h: History, pair: Pair, last: Time, now: Time)
    requires Inv(interval, h, last) && last <= now && Justified(h)
    ensures var notes := Requested(interval, h, pair, now).notes;
            && (notes == h.notes + [Asked(pair, now)] || notes == h.notes + [Asked(pair, now), Fired(pair, now)])
            && (notes == h.notes + [Asked(pair, now), Fired(pair, now)] <==>
                  && (forall x :: x in h.running ==> x.pair != pair)
                  && (forall n :: n in h.notes && n.Fired? && n.pair == pair ==> now - n.time >= interval))
  {
    hide Spaced, NoneLost, AllWanted, Wanted;
    var st, notes := h.Of(pair), Requested(interval, h, pair, now).notes;
    TimersAreOne(h);
    if st.timer.Some? {
      assert h.running[Running(pair, st.timer.value)] == 1;
      assert Running(pair, st.timer.value) in h.running;
    }
    if pair in h.states {
      assert Meant(h, pair, st);
    }
    assert |notes| == |h.notes| + 1 || notes == h.notes + [Asked(pair, now), Fired(pair, now)];
  }

  // ---- Whole schedules ----

  predicate Schedule(interval: int, h: History, last: Time, events: seq<Event>)
    decreases events
  {
    events != [] ==> last <= events[0].now && Enabled(h, events[0])
                     && Schedule(interval, Next(interval, h, events[0]), events[0].now, events[1..])
  }

  function After(interval: int, h: History, events: seq<Event>): History
    decreases events
  {
    if events == [] then h else After(interval, Next(interval, h, events[0]), events[1..])
  }

  function LastTime(last: Time, events: seq<Event>): Time {
    if events == [] then last else events[|events| - 1].now
  }

  lemma {:induction false} ScheduleKeeps(interval: int, h: History, last: Time, events: seq<Event>)
    requires Inv(interval, h, last) && Justified(h) && Schedule(interval, h, last, events)
    ensures Inv(interval, After(interval, h, events), LastTime(last, events)) && Justified(After(interval, h, events))
    decreases events
  {
    hide Promises, Timed, Requested, CalledBack, OneTimer, Justified;
    if events != [] {
      var e := events[0];
      match e {
        case Request(pair, now) =>
          RequestLaw(interval, h, pair, last, now);
          RequestJustified(interval, h, pair, last, now);
        case Callback(pair, deadline, now) =>
          CallbackLaw(interval, h, pair, deadline, last, now);
          CallbackJustified(interval, h, pair, deadline, last, now);
      }
      ScheduleKeeps(interval, Next(interval, h, e), e.now, events[1..]);
    }
  }

  /** Whatever the interleaving of requests and callbacks: refreshes of a pair are at least an interval apart, an
      armed timer and a pending request go together, a timer ends one interval after a refresh, every request has been
      followed by a refresh no earlier than it or has one due within an interval of it, and no refresh comes without
      a request since the one before. */
  lemma {:induction false} ThrottleLaw(interval: int, start: Time, events: seq<Event>)
    requires interval >= 0 && Schedule(interval, History(map[], multiset{}, []), start, events)
    ensures var h := After(interval, History(map[], multiset{}, []), events);
            && (forall pair :: pair in h.states ==> (h.states[pair].timer.Some? <==> h.states[pair].dirty))
            && (forall x, y :: x in h.running && y in h.running && x.pair == y.pair ==> x == y && h.running[x] == 1)
            && (forall x :: x in h.running ==> h.Of(x.pair).timer == Some(x.deadline))
            && (forall x :: x in h.running ==> Fired(x.pair, x.deadline - interval) in h.notes)
            && Spaced(interval, h.notes)
            && (forall i :: 0 <= i < |h.notes| && h.notes[i].Asked? ==> Served(h.notes, i) || Due(interval, h, i))
            && (forall i :: 0 <= i < |h.notes| && h.notes[i].Asked? && h.Of(h.notes[i].pair).timer == None ==>
                   Served(h.notes, i))
            && (forall j :: 0 <= j < |h.notes| && h.notes[j].Fired? ==> Wanted(h.notes, h.notes[j].pair, j))
  {
    hide Spaced, Served, After, Schedule, OneTimer, Wanted;
    assert Inv(interval, History(map[], multiset{}, []), start) by {
      NothingHappened(interval, start);
    }
    ScheduleKeeps(interval, History(map[], multiset{}, []), start, events);
    TimersAreOne(After(interval, History(map[], multiset{}, []), events));
    TimersFollow(interval, After(interval, History(map[], multiset{}, []), events));
  }

  /** The times of the refreshes decide: a request is answered at once exactly when no timer of the pair runs and
      every refresh of the pair lies at least an interval back. */
  lemma {:induction false} AtOnceIff(interval: int, start: Time, events: seq<Event>, pair: Pair, now: Time)
    requires interval >= 0 && Schedule(interval, History(map[], multiset{}, []), start, events)
    requires LastTime(start, events) <= now
    ensures var h := After(interval, History(map[], multiset{}, []), events);
            var notes := Requested(interval, h, pair, now).notes;
            && (notes == h.notes + [Asked(pair, now)] || notes == h.notes + [Asked(pair, now), Fired(pair, now)])
            && (notes == h.notes + [Asked(pair, now), Fired(pair, now)] <==>
                  && (forall x :: x in h.running ==> x.pair != pair)
                  && (forall n :: n in h.notes && n.Fired? && n.pair == pair ==> now - n.time >= interval))
  {
    hide *;
    NothingHappened(interval, start);
    ScheduleKeeps(interval, History(map[], multiset{}, []), start, events);
    AtOnceHere(interval, After(interval, History(map[], multiset{}, []), events), pair, LastTime(start, events), now);
  }

  lemma {:induction false} TimersFollow(interval: int, h: History)
    requires Promises(interval, h) && Justified(h)
    ensures forall x :: x in h.running ==> Fired(x.pair, x.deadline - interval) in h.notes
  {
    hide Spaced, NoneLost, AllWanted, OneTimer;
    TimersAreOne(h);
    forall x | x in h.running
      ensures Fired(x.pair, x.deadline - interval) in h.notes
    {
      assert x.pair in h.states && Armed(interval, h.states[x.pair]) && Meant(h, x.pair, h.states[x.pair]);
    }
  }

  lemma {:induction false} TimersAreOne(h: History)
    requires OneTimer(h)
    ensures forall x, y :: x in h.running && y in h.running && x.pair == y.pair ==> x == y && h.running[x] == 1
    ensures forall x :: x in h.running ==> h.Of(x.pair).timer == Some(x.deadline)
  {
    forall x | x in h.running
      ensures h.Of(x.pair).timer == Some(x.deadline) && h.running[x] == 1
    {
      assert h.running[Running(x.pair, x.deadline)] > 0;
    }
  }

  lemma {:induction false} NothingHappened(interval: int, start: Time)
    requires interval >= 0
    ensures Inv(interval, History(map[], multiset{}, []), start) && Justified(History(map[], multiset{}, []))
  {
  }

  // ---- The throttler ----

  class DepthThrottler {
    const interval: int
    var states: map<Pair, PairState>
    ghost var running: multiset<Running>
    ghost var notes: seq<Note>

    ghost function Value(): History
      reads this
    {
      History(states, running, notes)
    }

    constructor (interval: int)
      ensures this.interval == interval && Value() == History(map[], multiset{}, [])
    {
      this.interval, states, running, notes := interval, map[], multiset{}, [];
    }

    /** Asks for a refresh; `fired` tells whether it starts at once. */
    method Request(pair: Pair, now: Time) returns (fired: bool)
      modifies this
      ensures Value() == Requested(interval, old(Value()), pair, now)
      ensures notes == old(notes) + [Asked(pair, now)] + if fired then [Fired(pair, now)] else []
    {
      var st := if pair in states then states[pair] else IDLE;
      notes := notes + [Asked(pair, now)];
      if st.timer == None && (st.lastFired == None || now - st.lastFired.value >= interval) {
        states := states[pair := st.(lastFired := Some(now))];
        notes := notes + [Fired(pair, now)];
        return true;
      }
      st := st.(dirty := true);
      if st.timer == None {
        var remaining := if st.lastFired == None then 0 else interval - (now - st.lastFired.value);
        if remaining < 0 {
          remaining := 0;
        }
        st := st.(timer := Some(now + remaining));
        running := running + multiset{Running(pair, now + remaining)};
      }
      states := states[pair := st];
      fired := false;
    }

    /** The callback of the timer with this deadline. */
    method Callback(pair: Pair, deadline: Time, now: Time) returns (fired: bool)
      requires Enabled(Value(), Event.Callback(pair, deadline, now))
      modifies this
      ensures Value() == CalledBack(old(Value()), pair, deadline, now)
      ensures notes == old(notes) + if fired then [Fired(pair, now)] else []
    {
      var st := if pair in states then states[pair] else IDLE;
      st := st.(timer := None);
      fired := st.dirty;
      st := st.(dirty := false);
      st := st.(lastFired := Some(now));
      states := states[pair := st];
      running := running - multiset{Running(pair, deadline)};
      if fired {
        notes := notes + [Fired(pair, now)];
      }
    }
  }
}
