/** A token bucket per key, with idle buckets swept away. */
module Limiter {

  type Key = string
  /** Seconds. */
  type Time = real

  datatype Bucket = Bucket(tokens: real, last: Time)
  type Buckets = map<Key, Bucket>

  datatype Config = Config(rate: real, burst: real)

  const IDLE_LIMIT: real := 600.0

  function MinReal(a: real, b: real): real {
    if a <= b then a else b
  }

  /** Tokens that accrue in `elapsed` seconds. */
  function Accrued(elapsed: real, rate: real): real {
    elapsed * rate
  }

  /** Tokens of a known key at `now`. */
  function Refilled(c: Config, b: Bucket, now: Time): real {
    MinReal(c.burst, b.tokens + Accrued(now - b.last, c.rate))
  }

  function Allowed(c: Config, m: Buckets, key: Key, now: Time): (Buckets, bool) {
    if key !in m then (m[key := Bucket(c.burst - 1.0, now)], true)
    else
      var tokens := Refilled(c, m[key], now);
      if tokens < 1.0 then (m[key := Bucket(tokens, now)], false) else (m[key := Bucket(tokens - 1.0, now)], true)
  }

  function Swept(m: Buckets, now: Time): Buckets {
    map k | k in m && m[k].last >= now - IDLE_LIMIT :: m[k]
  }

  datatype Event = Call(key: Key, now: Time) | Sweep(now: Time)

  predicate InOrder(last: Time, events: seq<Event>)
    decreases events
  {
    events != [] ==> last <= events[0].now && InOrder(events[0].now, events[1..])
  }

  function Next(c: Config, m: Buckets, e: Event): Buckets {
    match e
    case Call(key, now) => Allowed(c, m, key, now).0
    case Sweep(now) => Swept(m, now)
  }

  /** The answers to the calls, in order. */
  function Answers(c: Config, m: Buckets, events: seq<Event>): seq<bool>
    decreases events
  {
    if events == [] then []
    else
      (if events[0].Call? then [Allowed(c, m, events[0].key, events[0].now).1] else [])
      + Answers(c, Next(c, m, events[0]), events[1..])
  }

  /** Calls of `key` allowed at times in the window from `s` to `t`. */
  function Count(c: Config, m: Buckets, events: seq<Event>, key: Key, s: Time, t: Time): nat
    decreases events
  {
    if events == [] then 0
    else
      var e := events[0];
      (if e.Call? && e.key == key && s <= e.now <= t && Allowed(c, m, key, e.now).1 then 1 else 0)
      + Count(c, Next(c, m, e), events[1..], key, s, t)
  }

  predicate Sane(c: Config) {
    c.rate >= 0.0 && c.burst >= 1.0
  }

  /** No bucket is over-full or in debt, or touched after `now`. */
  predicate Filled(c: Config, m: Buckets, now: Time) {
    forall k :: k in m ==> 0.0 <= m[k].tokens <= c.burst && m[k].last <= now
  }

  /** What a key could draw at `now`; a key without a bucket has the whole burst. */
  function Level(c: Config, m: Buckets, key: Key, now: Time): real {
    if key in m then Refilled(c, m[key], now) else c.burst
  }

  lemma {:induction false} AccruedIs(elapsed: real, rate: real)
    ensures Accrued(elapsed, rate) == elapsed * rate
  {
  }

  lemma {:induction false} RateMono(rate: real, a: real, b: real)
    requires rate >= 0.0 && a <= b
    ensures Accrued(a, rate) <= Accrued(b, rate) && Accrued(0.0, rate) == 0.0
  {
  }

  lemma {:induction false} AccruedSum(rate: real, a: real, b: real)
    ensures Accrued(a + b, rate) == Accrued(a, rate) + Accrued(b, rate)
  {
  }

  lemma {:induction false} NextFilled(c: Config, m: Buckets, last: Time, e: Event)
    requires Sane(c) && Filled(c, m, last) && last <= e.now
    ensures Filled(c, Next(c, m, e), e.now)
  {
    hide Accrued;
    if e.Call? && e.key in m {
      RateMono(c.rate, 0.0, e.now - m[e.key].last);
    }
  }

  // ---- The sweep is not noticed ----

  /** An idle bucket that would be full again answers as a fresh one does. This holds of all of them exactly when
      the idle limit refills the burst. */
  lemma {:induction false} IdleIsFreshIff(c: Config, key: Key)
    requires Sane(c)
    ensures (forall b: Bucket, now: Time :: 0.0 <= b.tokens <= c.burst && b.last < now - IDLE_LIMIT ==>
               Allowed(c, map[key := b], key, now) == Allowed(c, map[], key, now))
        <==> 600.0 * c.rate >= c.burst
  {
    hide Accrued;
    AccruedIs(IDLE_LIMIT, c.rate);
    if Accrued(IDLE_LIMIT, c.rate) >= c.burst {
      forall b: Bucket, now: Time | 0.0 <= b.tokens <= c.burst && b.last < now - IDLE_LIMIT
        ensures Allowed(c, map[key := b], key, now) == Allowed(c, map[], key, now)
      {
        IdleIsFull(c, b, now);
        assert map[key := b][key := Bucket(c.burst - 1.0, now)] == map[][key := Bucket(c.burst - 1.0, now)];
      }
    } else {
      var now := LateEnough(c);
      var b := Bucket(0.0, 0.0);
      assert Refilled(c, b, now) < c.burst;
      assert Allowed(c, map[key := b], key, now).0[key].tokens < c.burst - 1.0
             || !Allowed(c, map[key := b], key, now).1;
      assert Allowed(c, map[], key, now).0[key].tokens == c.burst - 1.0;
    }
  }

  /** A moment past the idle limit at which the burst is not refilled yet. */
  lemma {:induction false} LateEnough(c: Config) returns (now: Time)
    requires Sane(c) && Accrued(IDLE_LIMIT, c.rate) < c.burst
    ensures now > IDLE_LIMIT && Accrued(now, c.rate) < c.burst
  {
    if c.rate == 0.0 {
      now := IDLE_LIMIT + 1.0;
    } else {
      var full := c.burst / c.rate;
      assert Accrued(full, c.rate) == c.burst;
      assert IDLE_LIMIT < full by {
        if full <= IDLE_LIMIT {
          RateMono(c.rate, full, IDLE_LIMIT);
        }
      }
      now := (IDLE_LIMIT + full) / 2.0;
      assert Accrued(now, c.rate) == (Accrued(IDLE_LIMIT, c.rate) + Accrued(full, c.rate)) / 2.0;
    }
  }

  lemma {:induction false} IdleIsFull(c: Config, b: Bucket, now: Time)
    requires Sane(c) && Accrued(IDLE_LIMIT, c.rate) >= c.burst && 0.0 <= b.tokens && b.last < now - IDLE_LIMIT
    ensures Refilled(c, b, now) == c.burst
  {
    hide Accrued;
    RateMono(c.rate, IDLE_LIMIT, now - b.last);
  }

  /** `m'` is `m` without some buckets that are full again at `now`. */
  ghost predicate LessIdle(c: Config, m: Buckets, m': Buckets, now: Time) {
    && (forall k :: k in m' ==> k in m && m'[k] == m[k])
    && (forall k :: k in m && k !in m' ==> Refilled(c, m[k], now) == c.burst)
  }

  lemma {:induction false} StaysFull(c: Config, b: Bucket, now: Time, later: Time)
    requires Sane(c) && Refilled(c, b, now) == c.burst && now <= later
    ensures Refilled(c, b, later) == c.burst
  {
    hide Accrued;
    RateMono(c.rate, now - b.last, later - b.last);
  }

  lemma {:induction false} CallAlike(c: Config, m: Buckets, m': Buckets, now: Time, key: Key, later: Time)
    requires Sane(c) && LessIdle(c, m, m', now) && now <= later
    ensures Allowed(c, m, key, later).1 == Allowed(c, m', key, later).1
    ensures LessIdle(c, Allowed(c, m, key, later).0, Allowed(c, m', key, later).0, later)
  {
    hide Accrued;
    forall k | k in m && k !in m'
      ensures Refilled(c, m[k], later) == c.burst
    {
      StaysFull(c, m[k], now, later);
    }
  }

  lemma {:induction false} SweepAlike(c: Config, m: Buckets, m': Buckets, now: Time, later: Time)
    requires Sane(c) && Accrued(IDLE_LIMIT, c.rate) >= c.burst && Filled(c, m, now) && LessIdle(c, m, m', now)
             && now <= later
    ensures LessIdle(c, m, Swept(m', later), later)
  {
    hide Accrued;
    forall k | k in m && k !in Swept(m', later)
      ensures Refilled(c, m[k], later) == c.burst
    {
      if k in m' {
        IdleIsFull(c, m[k], later);
      } else {
        StaysFull(c, m[k], now, later);
      }
    }
  }

  function OnlyCalls(events: seq<Event>): seq<Event> {
    if events == [] then [] else (if events[0].Call? then [events[0]] else []) + OnlyCalls(events[1..])
  }

  /** Sweeps change no answer, wherever they fall. */
  lemma {:induction false} SweepsUnnoticed(c: Config, m: Buckets, m': Buckets, now: Time, events: seq<Event>)
    requires Sane(c) && Accrued(IDLE_LIMIT, c.rate) >= c.burst && InOrder(now, events)
    requires Filled(c, m, now) && LessIdle(c, m, m', now)
    ensures Answers(c, m', events) == Answers(c, m, OnlyCalls(events))
    decreases events
  {
    hide Allowed, LessIdle, Filled, Swept, Accrued;
    if events != [] {
      var e := events[0];
      if e.Call? {
        CallAlike(c, m, m', now, e.key, e.now);
        NextFilled(c, m, now, e);
        SweepsUnnoticed(c, Next(c, m, e), Next(c, m', e), e.now, events[1..]);
        assert OnlyCalls(events)[1..] == OnlyCalls(events[1..]);
      } else {
        SweepAlike(c, m, m', now, e.now);
        FilledLater(c, m, now, e.now);
        SweepsUnnoticed(c, m, Swept(m', e.now), e.now, events[1..]);
        assert [] + OnlyCalls(events[1..]) == OnlyCalls(events[1..]);
        assert [] + Answers(c, Swept(m', e.now), events[1..]) == Answers(c, Swept(m', e.now), events[1..]);
      }
    }
  }

  lemma {:induction false} FilledLater(c: Config, m: Buckets, now: Time, later: Time)
    requires Filled(c, m, now) && now <= later
    ensures Filled(c, m, later)
  {
  }

  // ---- The window bound ----

  /** Waiting adds at most `rate` per second to what a key can draw. */
  lemma {:induction false} LevelGrows(c: Config, m: Buckets, key: Key, now: Time, later: Time)
    requires Sane(c) && now <= later
    ensures Level(c, m, key, later) <= Level(c, m, key, now) + Accrued(later - now, c.rate)
    ensures Level(c, m, key, now) <= c.burst
  {
    hide Accrued;
    RateMono(c.rate, 0.0, later - now);
    if key in m {
      AccruedSum(c.rate, now - m[key].last, later - now);
    }
  }

  /** An allowed call draws one token; nothing else lowers a level, and no sweep raises one. */
  lemma {:induction false} LevelAfter(c: Config, m: Buckets, last: Time, key: Key, e: Event)
    requires Sane(c) && Filled(c, m, last) && last <= e.now && (e.Sweep? ==> Accrued(IDLE_LIMIT, c.rate) >= c.burst)
    ensures var drawn := if e.Call? && e.key == key && Allowed(c, m, key, e.now).1 then 1.0 else 0.0;
            Level(c, Next(c, m, e), key, e.now) == Level(c, m, key, e.now) - drawn
    ensures e.Call? && e.key == key && Allowed(c, m, key, e.now).1 ==> Level(c, m, key, e.now) >= 1.0
    ensures Level(c, m, key, e.now) >= 0.0
  {
    hide Accrued;
    RateMono(c.rate, 0.0, 0.0);
    if key in m {
      RateMono(c.rate, 0.0, e.now - m[key].last);
      if e.Sweep? && m[key].last < e.now - IDLE_LIMIT {
        IdleIsFull(c, m[key], e.now);
      }
    }
  }

  ghost predicate SweepsFull(c: Config, events: seq<Event>) {
    forall e :: e in events && e.Sweep? ==> Accrued(IDLE_LIMIT, c.rate) >= c.burst
  }

  lemma {:induction false} BoundFrom(c: Config, m: Buckets, last: Time, events: seq<Event>, key: Key, s: Time, t: Time)
    requires Sane(c) && Filled(c, m, last) && InOrder(last, events) && SweepsFull(c, events)
    requires s <= last <= t
    ensures Count(c, m, events, key, s, t) as real <= Level(c, m, key, last) + Accrued(t - last, c.rate)
    decreases events
  {
    hide Level, Allowed, Filled, Accrued;
    RateMono(c.rate, 0.0, t - last);
    if events == [] {
      LevelAfter(c, m, last, key, Call(key, last));
    } else {
      var e := events[0];
      LevelGrows(c, m, key, last, e.now);
      LevelAfter(c, m, last, key, e);
      NextFilled(c, m, last, e);
      assert forall x :: x in events[1..] ==> x in events;
      if e.now <= t {
        BoundFrom(c, Next(c, m, e), e.now, events[1..], key, s, t);
        AccruedSum(c.rate, t - e.now, e.now - last);
      } else {
        NoneLater(c, Next(c, m, e), e.now, events[1..], key, s, t);
        LevelAfter(c, m, last, key, Call(key, last));
      }
    }
  }

  lemma {:induction false} NoneLater(c: Config, m: Buckets, last: Time, events: seq<Event>, key: Key, s: Time, t: Time)
    requires InOrder(last, events) && t < last
    ensures Count(c, m, events, key, s, t) == 0
    decreases events
  {
    hide Next, Allowed;
    if events != [] {
      NoneLater(c, Next(c, m, events[0]), events[0].now, events[1..], key, s, t);
    }
  }

  /** In any window a key is allowed at most `burst + rate * (t - s)` calls. */
  lemma {:induction false} WindowBound(c: Config, m: Buckets, last: Time, events: seq<Event>, key: Key, s: Time,
                                       t: Time)
    requires Sane(c) && Filled(c, m, last) && InOrder(last, events) && s <= t
    requires (forall e :: e in events ==> e.Call?) || 600.0 * c.rate >= c.burst
    ensures Count(c, m, events, key, s, t) as real <= c.burst + (t - s) * c.rate
  {
    hide Count, Filled, InOrder, Accrued;
    AccruedIs(IDLE_LIMIT, c.rate);
    AccruedIs(t - s, c.rate);
    BoundInWindow(c, m, last, events, key, s, t);
  }

  lemma {:induction false} BoundInWindow(c: Config, m: Buckets, last: Time, events: seq<Event>, key: Key, s: Time,
                                       t: Time)
    requires Sane(c) && Filled(c, m, last) && InOrder(last, events) && SweepsFull(c, events) && s <= t
    ensures Count(c, m, events, key, s, t) as real <= c.burst + Accrued(t - s, c.rate)
    decreases events
  {
    hide Level, Allowed, Filled, Accrued;
    RateMono(c.rate, 0.0, t - s);
    if events != [] {
      var e := events[0];
      if e.now < s {
        NextFilled(c, m, last, e);
        assert forall x :: x in events[1..] ==> x in events;
        BoundInWindow(c, Next(c, m, e), e.now, events[1..], key, s, t);
      } else if last > t {
        NoneLater(c, m, last, events, key, s, t);
      } else {
        var from := if last < s then s else last;
        FilledFrom(c, m, last, from);
        LevelGrows(c, m, key, from, from);
        BoundFrom(c, m, from, events, key, s, t);
        RateMono(c.rate, t - from, t - s);
      }
    }
  }

  lemma {:induction false} FilledFrom(c: Config, m: Buckets, last: Time, from: Time)
    requires Filled(c, m, last) && last <= from
    ensures Filled(c, m, from)
  {
  }

  /** Below a burst of one the bound fails at once: a first call is always allowed. */
  lemma {:induction false} WindowBoundIff(c: Config, key: Key)
    requires c.rate >= 0.0
    ensures (forall events: seq<Event>, s: Time, t: Time ::
               InOrder(0.0, events) && OnlyCalls(events) == events && s <= t ==>
               Count(c, map[], events, key, s, t) as real <= c.burst + (t - s) * c.rate)
        <==> c.burst >= 1.0
  {
    hide Accrued;
    if c.burst >= 1.0 {
      forall events: seq<Event>, s: Time, t: Time | InOrder(0.0, events) && OnlyCalls(events) == events && s <= t
        ensures Count(c, map[], events, key, s, t) as real <= c.burst + (t - s) * c.rate
      {
        CallsOnly(events);
        WindowBound(c, map[], 0.0, events, key, s, t);
      }
    } else {
      RateMono(c.rate, 0.0, 0.0);
      var events := [Call(key, 0.0)];
      assert events[1..] == [];
      assert OnlyCalls(events) == events;
      assert Count(c, map[], events, key, 0.0, 0.0) == 1;
    }
  }

  lemma {:induction false} CallsOnly(events: seq<Event>)
    ensures forall e :: e in OnlyCalls(events) ==> e.Call?
  {
    if events != [] {
      CallsOnly(events[1..]);
    }
  }

  // ---- Exactly when a call is let through ----

  ghost function AfterAll(c: Config, m: Buckets, events: seq<Event>): Buckets
    decreases events
  {
    if events == [] then m else AfterAll(c, Next(c, m, events[0]), events[1..])
  }

  /** The times at which calls of `key` are let through. */
  function Granted(c: Config, m: Buckets, events: seq<Event>, key: Key): seq<Time>
    decreases events
  {
    if events == [] then []
    else
      var e := events[0];
      (if e.Call? && e.key == key && Allowed(c, m, key, e.now).1 then [e.now] else [])
      + Granted(c, Next(c, m, e), events[1..], key)
  }

  /** How many of `times` are `s` or later. */
  function Since(times: seq<Time>, s: Time): nat {
    if times == [] then 0
    else Since(times[..|times| - 1], s) + if times[|times| - 1] >= s then 1 else 0
  }

  /** What the window from `s` to `now` has left, of the burst and of what accrues in it. */
  function Room(c: Config, times: seq<Time>, s: Time, now: Time): real {
    c.burst + (now - s) * c.rate - Since(times, s) as real
  }

  /** One more call at `now` keeps the window from `s` within the burst and what accrues in it. */
  predicate Fits(c: Config, times: seq<Time>, s: Time, now: Time) {
    (Since(times, s) + 1) as real <= c.burst + (now - s) * c.rate
  }

  /** What the key can draw is what the tightest window ending at `now` has left. */
  ghost predicate Tightest(c: Config, m: Buckets, key: Key, times: seq<Time>, now: Time) {
    && (forall i :: 0 <= i < |times| ==> times[i] <= now)
    && (forall s :: s <= now ==> Level(c, m, key, now) <= Room(c, times, s, now))
    && (exists s :: s <= now && Level(c, m, key, now) == Room(c, times, s, now))
  }

  lemma {:induction false} NoneSince(times: seq<Time>, s: Time)
    requires forall i :: 0 <= i < |times| ==> times[i] < s
    ensures Since(times, s) == 0
  {
    if times != [] {
      NoneSince(times[..|times| - 1], s);
    }
  }

  lemma {:induction false} SinceOneMore(times: seq<Time>, now: Time, s: Time)
    requires s <= now
    ensures Since(times + [now], s) == Since(times, s) + 1
  {
    assert (times + [now])[..|times|] == times;
  }

  /** With time, a level rises at the rate, up to the burst. */
  lemma {:induction false} LevelLater(c: Config, m: Buckets, key: Key, now: Time, later: Time)
    requires Sane(c) && now <= later
    ensures Level(c, m, key, later) == MinReal(c.burst, Level(c, m, key, now) + (later - now) * c.rate)
  {
    hide Accrued;
    RateMono(c.rate, 0.0, later - now);
    AccruedIs(later - now, c.rate);
    if key in m {
      AccruedSum(c.rate, now - m[key].last, later - now);
    }
  }

  lemma {:induction false} RoomLater(c: Config, times: seq<Time>, s: Time, now: Time, later: Time)
    ensures Room(c, times, s, later) == Room(c, times, s, now) + (later - now) * c.rate
  {
    RatesAdd(now - s, later - now, c.rate);
  }

  lemma {:induction false} RatesAdd(a: real, b: real, rate: real)
    ensures (a + b) * rate == a * rate + b * rate
  {
  }

  lemma {:induction false} RoomOfNone(c: Config, times: seq<Time>, s: Time, now: Time)
    requires Sane(c) && s <= now && forall i :: 0 <= i < |times| ==> times[i] < s
    ensures Room(c, times, s, now) >= c.burst
    ensures s == now ==> Room(c, times, s, now) == c.burst
  {
    NoneSince(times, s);
    var waited := now - s;
    NotNegative(waited, c.rate);
    assert Room(c, times, s, now) == c.burst + waited * c.rate;
  }

  lemma {:induction false} NotNegative(a: real, b: real)
    requires a >= 0.0 && b >= 0.0
    ensures a * b >= 0.0
    ensures a == 0.0 ==> a * b == 0.0
  {
  }

  lemma {:induction false} TightestLater(c: Config, m: Buckets, key: Key, times: seq<Time>, now: Time, later: Time)
    requires Sane(c) && now <= later && Tightest(c, m, key, times, now)
    ensures Tightest(c, m, key, times, later)
  {
    hide Level, Room, Since;
    LevelLater(c, m, key, now, later);
    forall s | s <= later
      ensures Level(c, m, key, later) <= Room(c, times, s, later)
    {
      if s <= now {
        RoomLater(c, times, s, now, later);
      } else {
        RoomOfNone(c, times, s, later);
      }
    }
    var s :| s <= now && Level(c, m, key, now) == Room(c, times, s, now);
    RoomLater(c, times, s, now, later);
    if Level(c, m, key, later) != Room(c, times, s, later) {
      assert now < later by {
        LevelGrows(c, m, key, now, now);
      }
      RoomOfNone(c, times, later, later);
    }
  }

  lemma {:induction false} TightestAfter(c: Config, m: Buckets, last: Time, key: Key, times: seq<Time>, e: Event)
    requires Sane(c) && Filled(c, m, last) && last <= e.now && Tightest(c, m, key, times, e.now)
    requires e.Sweep? ==> Accrued(IDLE_LIMIT, c.rate) >= c.burst
    ensures var drawn := e.Call? && e.key == key && Allowed(c, m, key, e.now).1;
            Tightest(c, Next(c, m, e), key, if drawn then times + [e.now] else times, e.now)
  {
    hide Level, Since, Accrued, Allowed, Next;
    LevelAfter(c, m, last, key, e);
    if e.Call? && e.key == key && Allowed(c, m, key, e.now).1 {
      forall s | s <= e.now
        ensures Room(c, times + [e.now], s, e.now) == Room(c, times, s, e.now) - 1.0
      {
        SinceOneMore(times, e.now, s);
      }
    }
  }

  /** Not too much: allowed calls never exceed the bound. Not too little: a call is let through exactly when no
      window that ends with it would then hold more than the burst and what accrues in it. */
  lemma {:induction false} AllowedIff(c: Config, events: seq<Event>, key: Key, now: Time)
    requires Sane(c) && InOrder(0.0, events + [Call(key, now)])
    requires (forall e :: e in events ==> e.Call?) || 600.0 * c.rate >= c.burst
    ensures var granted := Granted(c, map[], events, key);
            Allowed(c, AfterAll(c, map[], events), key, now).1
            <==> forall s :: s <= now ==> Fits(c, granted, s, now)
  {
    hide Level, Since, Fits, Tightest, Allowed, InOrder, Granted, AfterAll, Filled;
    AccruedIs(IDLE_LIMIT, c.rate);
    NoGrants(c, key, 0.0);
    RunIsTight(c, map[], 0.0, events, key, now, []);
    var m, times := AfterAll(c, map[], events), Granted(c, map[], events, key);
    assert [] + times == times;
    AllowedLevel(c, m, key, now);
    TightMeans(c, m, key, times, now);
  }

  lemma {:induction false} TightMeans(c: Config, m: Buckets, key: Key, times: seq<Time>, now: Time)
    requires Tightest(c, m, key, times, now)
    ensures Level(c, m, key, now) >= 1.0
       <==> forall s :: s <= now ==> Fits(c, times, s, now)
  {
    hide Level, Room, Fits;
    forall s
      ensures Room(c, times, s, now) >= 1.0 <==> Fits(c, times, s, now)
    {
      RoomForOne(c, times, s, now);
    }
    if Level(c, m, key, now) < 1.0 {
      var s :| s <= now && Level(c, m, key, now) == Room(c, times, s, now);
      assert !Fits(c, times, s, now);
    }
  }

  lemma {:induction false} RoomForOne(c: Config, times: seq<Time>, s: Time, now: Time)
    ensures Room(c, times, s, now) >= 1.0 <==> Fits(c, times, s, now)
  {
  }

  lemma {:induction false} NoGrants(c: Config, key: Key, now: Time)
    requires Sane(c)
    ensures Tightest(c, map[], key, [], now) && Filled(c, map[], now)
  {
    hide Room;
    forall s | s <= now
      ensures Room(c, [], s, now) >= c.burst
    {
      RoomOfNone(c, [], s, now);
    }
    RoomOfNone(c, [], now, now);
  }

  lemma {:induction false} AllowedLevel(c: Config, m: Buckets, key: Key, now: Time)
    requires Sane(c)
    ensures Allowed(c, m, key, now).1 <==> Level(c, m, key, now) >= 1.0
  {
  }

  lemma {:induction false} RunIsTight(c: Config, m: Buckets, last: Time, events: seq<Event>, key: Key, now: Time,
                                      times: seq<Time>)
    requires Sane(c) && Filled(c, m, last) && InOrder(last, events + [Call(key, now)])
    requires (forall e :: e in events ==> e.Call?) || Accrued(IDLE_LIMIT, c.rate) >= c.burst
    requires Tightest(c, m, key, times, last)
    ensures Tightest(c, AfterAll(c, m, events), key, times + Granted(c, m, events, key), now)
    decreases events
  {
    hide Tightest, Next, Allowed, Accrued, Filled;
    if events == [] {
      assert [] + [Call(key, now)] == [Call(key, now)] && times + [] == times;
      TightestLater(c, m, key, times, last, now);
    } else {
      var e := events[0];
      assert (events + [Call(key, now)])[1..] == events[1..] + [Call(key, now)];
      TightestLater(c, m, key, times, last, e.now);
      TightestAfter(c, m, last, key, times, e);
      NextFilled(c, m, last, e);
      var drawn := e.Call? && e.key == key && Allowed(c, m, key, e.now).1;
      var times' := if drawn then times + [e.now] else times;
      RunIsTight(c, Next(c, m, e), e.now, events[1..], key, now, times');
      var rest := Granted(c, Next(c, m, e), events[1..], key);
      assert times + ((if drawn then [e.now] else []) + rest) == times' + rest;
    }
  }

  // ---- Sweeping too early breaks the bound ----

  function Calls(key: Key, n: nat, now: Time): seq<Event> {
    if n == 0 then [] else [Call(key, now)] + Calls(key, n - 1, now)
  }

  /** A way to use up a full bucket and have it swept before it would be full again: `whole` calls at once, one
      more when the rest has grown to a token after `wait`, and a sweep after a further `idle`. */
  datatype Drain = Drain(whole: nat, more: bool, wait: Time, idle: Time)
  {
    function Taken(): nat {
      whole + if more then 1 else 0
    }

    function Span(): Time {
      wait + idle
    }
  }

  /** The drain is possible, and takes more than accrues in its time. */
  predicate Profitable(c: Config, d: Drain) {
    && d.whole >= 1 && d.whole as real <= c.burst && d.wait >= 0.0 && d.idle > IDLE_LIMIT
    && (d.more ==> c.burst - d.whole as real + Accrued(d.wait, c.rate) == 1.0)
    && Accrued(d.Span(), c.rate) < d.Taken() as real
  }

  /** The key is used and swept `k` times, from `from` on. */
  function Drained(key: Key, d: Drain, k: nat, from: Time): seq<Event> {
    if k == 0 then []
    else
      Calls(key, d.whole, from) + (if d.more then [Call(key, from + d.wait)] else []) + [Sweep(from + d.Span())]
      + Drained(key, d, k - 1, from + d.Span())
  }

  lemma {:induction false} FindDrain(c: Config) returns (d: Drain)
    requires Sane(c) && Accrued(IDLE_LIMIT, c.rate) < c.burst
    ensures Profitable(c, d)
  {
    var whole := c.burst.Floor;
    var late := LateEnough(c);
    var rest := c.burst - whole as real;
    RateMono(c.rate, 0.0, 0.0);
    AccruedSum(c.rate, 0.0, late);
    if c.rate == 0.0 || rest == 0.0 {
      d := Drain(whole, false, 0.0, late);
      assert d.Span() == late;
    } else {
      var wait := (1.0 - rest) / c.rate;
      assert wait * c.rate == 1.0 - rest;
      AccruedSum(c.rate, wait, late);
      d := Drain(whole, true, wait, late);
    }
  }

  lemma {:induction false} CallOnce(c: Config, m: Buckets, key: Key, now: Time, rest: seq<Event>, s: Time, t: Time)
    requires s <= now <= t && Allowed(c, m, key, now).1
    ensures Count(c, m, [Call(key, now)] + rest, key, s, t) == 1 + Count(c, Allowed(c, m, key, now).0, rest, key, s, t)
  {
    hide Allowed;
    assert ([Call(key, now)] + rest)[1..] == rest;
  }

  lemma {:induction false} CallsAtOnce(c: Config, m: Buckets, key: Key, n: nat, now: Time, rest: seq<Event>, s: Time,
                                       t: Time)
    requires Sane(c) && s <= now <= t && key in m && m[key].last == now && n as real <= m[key].tokens <= c.burst
    ensures Count(c, m, Calls(key, n, now) + rest, key, s, t)
         == n + Count(c, m[key := Bucket(m[key].tokens - n as real, now)], rest, key, s, t)
    decreases n
  {
    hide Count, Accrued;
    if n == 0 {
      assert Calls(key, n, now) + rest == rest;
      assert m[key := Bucket(m[key].tokens - 0.0, now)] == m;
    } else {
      RateMono(c.rate, 0.0, 0.0);
      var m1 := Allowed(c, m, key, now).0;
      assert m1 == m[key := Bucket(m[key].tokens - 1.0, now)];
      assert Calls(key, n, now) + rest == [Call(key, now)] + (Calls(key, n - 1, now) + rest);
      CallOnce(c, m, key, now, Calls(key, n - 1, now) + rest, s, t);
      CallsAtOnce(c, m1, key, n - 1, now, rest, s, t);
      assert m1[key := Bucket(m1[key].tokens - (n - 1) as real, now)]
             == m[key := Bucket(m[key].tokens - n as real, now)];
    }
  }

  /** One drain takes all its tokens and leaves the key unknown again. */
  lemma {:induction false} DrainOnce(c: Config, m: Buckets, key: Key, d: Drain, from: Time, rest: seq<Event>, s: Time,
                                     t: Time)
      returns (m': Buckets)
    requires Sane(c) && Profitable(c, d) && key !in m && s <= from && from + d.Span() <= t
    ensures key !in m'
    ensures Count(c, m, Calls(key, d.whole, from) + (if d.more then [Call(key, from + d.wait)] else [])
                        + [Sweep(from + d.Span())] + rest, key, s, t)
         == d.Taken() + Count(c, m', rest, key, s, t)
  {
    hide Count, Accrued;
    var more, sweep := if d.more then [Call(key, from + d.wait)] else [], [Sweep(from + d.Span())];
    var tail := more + (sweep + rest);
    assert Calls(key, d.whole, from) + more + sweep + rest
           == [Call(key, from)] + (Calls(key, d.whole - 1, from) + tail);
    CallOnce(c, m, key, from, Calls(key, d.whole - 1, from) + tail, s, t);
    var m1 := Allowed(c, m, key, from).0;
    assert m1[key] == Bucket(c.burst - 1.0, from);
    CallsAtOnce(c, m1, key, d.whole - 1, from, tail, s, t);
    var m2 := m1[key := Bucket(c.burst - d.whole as real, from)];
    assert m1[key].tokens - (d.whole - 1) as real == c.burst - d.whole as real;
    var m3 := m2;
    if d.more {
      assert Refilled(c, m2[key], from + d.wait) == 1.0;
      CallOnce(c, m2, key, from + d.wait, sweep + rest, s, t);
      m3 := Allowed(c, m2, key, from + d.wait).0;
    } else {
      assert tail == sweep + rest;
    }
    m' := Swept(m3, from + d.Span());
    SweepOnly(c, m3, from + d.Span(), rest, key, s, t);
  }

  lemma {:induction false} SweepOnly(c: Config, m: Buckets, now: Time, rest: seq<Event>, key: Key, s: Time, t: Time)
    ensures Count(c, m, [Sweep(now)] + rest, key, s, t) == Count(c, Swept(m, now), rest, key, s, t)
  {
    assert ([Sweep(now)] + rest)[1..] == rest;
  }

  /** `k` times `x`. */
  function Times(k: nat, x: real): real {
    k as real * x
  }

  lemma {:induction false} TimesStep(k: nat, x: real)
    requires k > 0
    ensures Times(k, x) == x + Times(k - 1, x)
  {
  }

  lemma {:induction false} TimesPositive(k: nat, x: real)
    requires x >= 0.0
    ensures Times(k, x) >= 0.0
  {
  }

  lemma {:induction false} TimesMinus(k: nat, x: real, y: real)
    ensures Times(k, x - y) == Times(k, x) - Times(k, y)
  {
  }

  lemma {:induction false} DrainedCount(c: Config, m: Buckets, key: Key, d: Drain, k: nat, from: Time, s: Time, t: Time)
    requires Sane(c) && Profitable(c, d) && key !in m && s <= from && from + Times(k, d.Span()) <= t
    ensures Count(c, m, Drained(key, d, k, from), key, s, t) as real == Times(k, d.Taken() as real)
    decreases k
  {
    hide Profitable, Times, Count, Accrued;
    if k == 0 {
      NothingCounted(c, m, key, s, t);
      NoTimes(d.Span());
      NoTimes(d.Taken() as real);
    } else {
      SpanPositive(c, d);
      TimesStep(k, d.Span());
      TimesStep(k, d.Taken() as real);
      TimesPositive(k - 1, d.Span());
      var m' := DrainOnce(c, m, key, d, from, Drained(key, d, k - 1, from + d.Span()), s, t);
      DrainedCount(c, m', key, d, k - 1, from + d.Span(), s, t);
    }
  }

  lemma {:induction false} NothingCounted(c: Config, m: Buckets, key: Key, s: Time, t: Time)
    ensures Count(c, m, [], key, s, t) == 0
  {
  }

  lemma {:induction false} NoTimes(x: real)
    ensures Times(0, x) == 0.0
  {
  }

  lemma {:induction false} SpanPositive(c: Config, d: Drain)
    requires Profitable(c, d)
    ensures d.Span() > 0.0 && d.wait >= 0.0 && d.idle > 0.0
  {
  }

  lemma {:induction false} CallsInOrder(key: Key, n: nat, now: Time, last: Time, rest: seq<Event>)
    requires last <= now && InOrder(now, rest)
    ensures InOrder(last, Calls(key, n, now) + rest)
    decreases n
  {
    if n == 0 {
      assert Calls(key, n, now) + rest == rest;
    } else {
      CallsInOrder(key, n - 1, now, now, rest);
      assert (Calls(key, n, now) + rest)[1..] == Calls(key, n - 1, now) + rest;
    }
  }

  lemma {:induction false} OneInOrder(e: Event, last: Time, rest: seq<Event>)
    requires last <= e.now && InOrder(e.now, rest)
    ensures InOrder(last, [e] + rest)
  {
    assert ([e] + rest)[1..] == rest;
  }

  lemma {:induction false} PlainInOrder(key: Key, n: nat, from: Time, end: Time, rest: seq<Event>)
    requires from <= end && InOrder(end, rest)
    ensures InOrder(from, Calls(key, n, from) + [] + [Sweep(end)] + rest)
  {
    hide InOrder, Calls;
    OneInOrder(Sweep(end), from, rest);
    CallsInOrder(key, n, from, from, [Sweep(end)] + rest);
    assert Calls(key, n, from) + [] + [Sweep(end)] + rest == Calls(key, n, from) + ([Sweep(end)] + rest);
  }

  lemma {:induction false} MoreInOrder(key: Key, n: nat, from: Time, mid: Time, end: Time, rest: seq<Event>)
    requires from <= mid <= end && InOrder(end, rest)
    ensures InOrder(from, Calls(key, n, from) + [Call(key, mid)] + [Sweep(end)] + rest)
  {
    hide InOrder, Calls;
    var tail := [Call(key, mid)] + ([Sweep(end)] + rest);
    OneInOrder(Sweep(end), mid, rest);
    OneInOrder(Call(key, mid), from, [Sweep(end)] + rest);
    CallsInOrder(key, n, from, from, tail);
    assert Calls(key, n, from) + [Call(key, mid)] + [Sweep(end)] + rest == Calls(key, n, from) + tail;
  }

  lemma {:induction false} DrainedInOrder(c: Config, key: Key, d: Drain, k: nat, from: Time)
    requires Profitable(c, d)
    ensures InOrder(from, Drained(key, d, k, from))
    decreases k
  {
    hide InOrder, Calls, Accrued, Profitable;
    if k == 0 {
      NothingInOrder(from);
    } else {
      var end := from + d.Span();
      var rest := Drained(key, d, k - 1, end);
      SpanPositive(c, d);
      DrainedInOrder(c, key, d, k - 1, end);
      if d.more {
        MoreInOrder(key, d.whole, from, from + d.wait, end, rest);
      } else {
        PlainInOrder(key, d.whole, from, end, rest);
      }
    }
  }

  lemma {:induction false} NothingInOrder(last: Time)
    ensures InOrder(last, [])
  {
  }

  lemma {:induction false} AccruedTimes(rate: real, k: nat, span: Time)
    ensures Accrued(Times(k, span), rate) == Times(k, Accrued(span, rate))
  {
  }

  /** Enough drains exceed any allowance. */
  lemma {:induction false} Enough(burst: real, gain: real) returns (k: nat)
    requires gain > 0.0 && burst >= 0.0
    ensures Times(k, gain) > burst
  {
    var q := burst / gain;
    assert q * gain == burst;
    k := q.Floor + 1;
    assert k as real > q;
    assert (k as real - q) * gain > 0.0;
  }

  /** With sweeps anywhere, the window bound holds of all schedules exactly when ten minutes refill the burst. */
  lemma {:induction false} WindowBoundSweepsIff(c: Config, key: Key)
    requires Sane(c)
    ensures (forall events: seq<Event>, s: Time, t: Time :: InOrder(0.0, events) && s <= t ==>
               Count(c, map[], events, key, s, t) as real <= c.burst + (t - s) * c.rate)
        <==> 600.0 * c.rate >= c.burst
  {
    AccruedIs(IDLE_LIMIT, c.rate);
    hide Accrued, Count, InOrder, Profitable;
    if Accrued(IDLE_LIMIT, c.rate) >= c.burst {
      forall events: seq<Event>, s: Time, t: Time | InOrder(0.0, events) && s <= t
        ensures Count(c, map[], events, key, s, t) as real <= c.burst + (t - s) * c.rate
      {
        WindowBound(c, map[], 0.0, events, key, s, t);
      }
    } else {
      var events, t := TooMany(c, key);
      AccruedIs(t, c.rate);
      assert InOrder(0.0, events) && 0.0 <= t;
      assert t - 0.0 == t;
    }
  }

  /** A schedule that gets more than the bound. */
  lemma {:induction false} TooMany(c: Config, key: Key) returns (events: seq<Event>, t: Time)
    requires Sane(c) && Accrued(IDLE_LIMIT, c.rate) < c.burst
    ensures InOrder(0.0, events) && t >= 0.0
    ensures Count(c, map[], events, key, 0.0, t) as real > c.burst + Accrued(t, c.rate)
  {
    hide Accrued, Count, InOrder, Times;
    var d := FindDrain(c);
    var taken, accrued := d.Taken() as real, Accrued(d.Span(), c.rate);
    var k := Enough(c.burst, taken - accrued);
    events, t := Drained(key, d, k, 0.0), Times(k, d.Span());
    TimesPositive(k, d.Span());
    DrainedInOrder(c, key, d, k, 0.0);
    DrainedCount(c, map[], key, d, k, 0.0, 0.0, t);
    AccruedTimes(c.rate, k, d.Span());
    TimesMinus(k, taken, accrued);
  }

  // ---- The limiter ----

  class RateLimiter {
    var buckets: Buckets
    const rate: real
    const burst: real

    function Settings(): Config {
      Config(rate, burst)
    }

    constructor (rate: real, burst: real)
      ensures buckets == map[] && Settings() == Config(rate, burst)
    {
      buckets, this.rate, this.burst := map[], rate, burst;
    }

    /** Whether a call under `key` may proceed; takes a token if so. */
    method Allow(key: Key, now: Time) returns (ok: bool)
      modifies this
      ensures (buckets, ok) == Allowed(Settings(), old(buckets), key, now)
    {
      if key !in buckets {
        buckets := buckets[key := Bucket(burst - 1.0, now)];
        return true;
      }
      hide Accrued;
      var b := buckets[key];
      var elapsed := now - b.last;
      var tokens := MinReal(burst, b.tokens + Accrued(elapsed, rate));
      if tokens < 1.0 {
        buckets := buckets[key := Bucket(tokens, now)];
        return false;
      }
      buckets := buckets[key := Bucket(tokens - 1.0, now)];
      ok := true;
    }

    /** One pass of the background sweep, in the map's iteration order. */
    method SweepIdle(now: Time)
      modifies this
      ensures buckets == Swept(old(buckets), now)
      ensures forall k :: k in old(buckets) ==> (k in buckets <==> now - old(buckets)[k].last <= 600.0)
      ensures forall k :: k in buckets ==> k in old(buckets) && buckets[k] == old(buckets)[k]
    {
      var cutoff := now - IDLE_LIMIT;
      var todo := buckets.Keys;
      while todo != {}
        invariant todo <= buckets.Keys <= old(buckets).Keys
        invariant forall k :: k in buckets ==> buckets[k] == old(buckets)[k]
        invariant forall k :: k in old(buckets) ==> (k in buckets <==> k in todo || old(buckets)[k].last >= cutoff)
        decreases todo
      {
        var k :| k in todo;
        if buckets[k].last < cutoff {
          buckets := buckets - {k};
        }
        todo := todo - {k};
      }
    }
  }
}
