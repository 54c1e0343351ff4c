/** Snowflake ids: 42 bits of milliseconds, 5 of datacenter, 5 of machine, 12 of sequence. */
module Snowflake {
  import opened Types

  const TWO_TO_THE_64 := 0x1_0000_0000_0000_0000
  const TWO_TO_THE_42 := 0x400_0000_0000

  type U64 = n: int | 0 <= n < 0x1_0000_0000_0000_0000

  /** Milliseconds between the Unix epoch and 2024-01-01. */
  const EPOCH: U64 := 1_704_067_200_000
  const MAX_ID: U64 := 31
  const MAX_SEQUENCE_ID: U64 := 4095

  // ---- Bits of unsigned words ----

  function Pow2(k: nat): (p: nat)
    ensures p > 0
  {
    if k == 0 then 1 else 2 * Pow2(k - 1)
  }

  /** A left shift drops what leaves the word. */
  function ShiftLeft(x: U64, k: nat): U64 {
    x * Pow2(k) % TWO_TO_THE_64
  }

  /** Bitwise or. */
  function Or(a: nat, b: nat): nat {
    if a == 0 then b else 2 * Or(a / 2, b / 2) + (if a % 2 == 1 || b % 2 == 1 then 1 else 0)
  }

  /** Bitwise and. */
  function And(a: nat, b: nat): nat {
    if a == 0 then 0 else 2 * And(a / 2, b / 2) + (if a % 2 == 1 && b % 2 == 1 then 1 else 0)
  }

  lemma {:induction false} OrNone(a: nat)
    ensures Or(a, 0) == a
  {
    if a > 0 {
      OrNone(a / 2);
    }
  }

  /** Numbers without a common bit: the or is the sum. */
  lemma {:induction false} OrIsSum(high: nat, low: nat, k: nat)
    requires low < Pow2(k)
    ensures Or(high * Pow2(k), low) == high * Pow2(k) + low
    decreases k
  {
    if k == 0 {
      OrNone(high);
    } else if high > 0 {
      var p := high * Pow2(k - 1);
      assert high * Pow2(k) == 2 * p;
      assert p > 0;
      OrIsSum(high, low / 2, k - 1);
    }
  }

  /** Masking with ones keeps the remainder. */
  lemma {:induction false} AndOnes(a: nat, k: nat)
    ensures And(a, Pow2(k) - 1) == a % Pow2(k)
    decreases k
  {
    if k == 0 {
      AndNone(a);
    } else {
      AndOnes(a / 2, k - 1);
      assert (Pow2(k) - 1) / 2 == Pow2(k - 1) - 1 && (Pow2(k) - 1) % 2 == 1;
      HalfRemainder(a, Pow2(k - 1));
    }
  }

  lemma {:induction false} AndNone(a: nat)
    ensures And(a, 0) == 0
  {
    if a > 0 {
      AndNone(a / 2);
    }
  }

  lemma {:induction false} HalfRemainder(a: nat, p: nat)
    requires p > 0
    ensures a % (2 * p) == 2 * (a / 2 % p) + a % 2
  {
    var h, r := a / 2 / p, a / 2 % p;
    assert a == 2 * (h * p + r) + a % 2;
    assert 2 * (h * p) == h * (2 * p);
    RemainderIs(a, h, 2 * p, 2 * r + a % 2);
  }

  lemma {:induction false} RemainderIs(a: nat, q: nat, d: nat, r: nat)
    requires a == q * d + r && r < d
    ensures a % d == r
  {
    var q' := a / d;
    assert a == q' * d + a % d;
    if q' > q {
      MulLe(q + 1, q', d);
      assert false;
    }
    if q' < q {
      MulLe(q' + 1, q, d);
      assert false;
    }
  }

  lemma {:induction false} MulLe(x: nat, y: nat, d: nat)
    requires x <= y
    ensures x * d <= y * d
  {
  }

  lemma {:induction false} Powers()
    ensures Pow2(5) == 32 && Pow2(12) == 4096 && Pow2(17) == 0x2_0000 && Pow2(22) == 0x40_0000
  {
    assert Pow2(4) == 16;
    assert Pow2(8) == 256;
    assert Pow2(12) == 4096;
    assert Pow2(16) == 0x1_0000;
    assert Pow2(20) == 0x10_0000;
  }

  // ---- The packed fields ----

  /** Timestamp, datacenter, machine and sequence, shifted into place and or-ed together. */
  function Pack(millis: U64, datacenter: U64, machine: U64, sequence: U64): nat {
    Or(Or(Or(ShiftLeft(millis, 22), ShiftLeft(datacenter, 17)), ShiftLeft(machine, 12)), sequence)
  }

  predicate InRange(datacenter: U64, machine: U64, sequence: U64) {
    datacenter < 32 && machine < 32 && sequence < 4096
  }

  lemma {:induction false} ShiftMillis(millis: U64)
    ensures ShiftLeft(millis, 22) == millis % TWO_TO_THE_42 * 0x40_0000
  {
    hide Pow2;
    Powers();
    var q, t := millis / TWO_TO_THE_42, millis % TWO_TO_THE_42;
    assert millis == q * TWO_TO_THE_42 + t;
    assert millis * 0x40_0000 == q * TWO_TO_THE_64 + t * 0x40_0000;
    RemainderIs(millis * 0x40_0000, q, TWO_TO_THE_64, t * 0x40_0000);
  }

  lemma {:induction false} ShiftFits(x: U64, k: nat, p: nat)
    requires x < 32 && p <= 0x2_0000 && Pow2(k) == p
    ensures ShiftLeft(x, k) == x * p
  {
    assert 0 <= x * p <= 32 * 0x2_0000;
  }

  /** The fields do not overlap; of the timestamp only 42 bits fit. */
  lemma {:induction false} PackIsSum(millis: U64, datacenter: U64, machine: U64, sequence: U64)
    requires InRange(datacenter, machine, sequence)
    ensures Pack(millis, datacenter, machine, sequence)
         == millis % TWO_TO_THE_42 * 0x40_0000 + datacenter * 0x2_0000 + machine * 4096 + sequence
  {
    hide Or, Pow2;
    Powers();
    var t := millis % TWO_TO_THE_42;
    ShiftMillis(millis);
    ShiftFits(datacenter, 17, 0x2_0000);
    ShiftFits(machine, 12, 4096);
    OrIsSum(t, datacenter * 0x2_0000, 22);
    OrIsSum(t * 32 + datacenter, machine * 4096, 17);
    OrIsSum((t * 32 + datacenter) * 32 + machine, sequence, 12);
  }

  /** Shifting the id right and masking gives these fields. */
  predicate Reads(id: nat, millis: nat, datacenter: nat, machine: nat, sequence: nat) {
    && id / Pow2(22) == millis
    && And(id / Pow2(17), 31) == datacenter
    && And(id / Pow2(12), 31) == machine
    && And(id, 4095) == sequence
  }

  /** The fields are recovered from the id by shifting right and masking. */
  lemma {:induction false} Unpack(millis: U64, datacenter: U64, machine: U64, sequence: U64)
    requires InRange(datacenter, machine, sequence)
    ensures var id := Pack(millis, datacenter, machine, sequence);
            0 <= id < TWO_TO_THE_64 && Reads(id, millis % TWO_TO_THE_42, datacenter, machine, sequence)
  {
    hide Pack, And, Pow2;
    PackIsSum(millis, datacenter, machine, sequence);
    Powers();
    var id, t := Pack(millis, datacenter, machine, sequence), millis % TWO_TO_THE_42;
    Digits(id, t, datacenter, machine, sequence);
    AndOnes(id / 0x2_0000, 5);
    AndOnes(id / 4096, 5);
    AndOnes(id, 12);
  }

  lemma {:induction false} Digits(id: nat, t: nat, d: U64, m: U64, s: U64)
    requires InRange(d, m, s) && id == t * 0x40_0000 + d * 0x2_0000 + m * 4096 + s
    ensures id / 0x40_0000 == t && id / 0x2_0000 % 32 == d && id / 4096 % 32 == m && id % 4096 == s
  {
    assert id / 0x2_0000 == t * 32 + d;
    assert id / 4096 == (t * 32 + d) * 32 + m;
  }

  /** Two ids are the same exactly when all fields are, timestamps counted modulo 2^42 milliseconds. */
  lemma {:induction false} SameIdIff(t: U64, d: U64, m: U64, s: U64, t': U64, d': U64, m': U64, s': U64)
    requires InRange(d, m, s) && InRange(d', m', s')
    ensures Pack(t, d, m, s) == Pack(t', d', m', s')
       <==> t % TWO_TO_THE_42 == t' % TWO_TO_THE_42 && d == d' && m == m' && s == s'
  {
    hide Pack;
    PackIsSum(t, d, m, s);
    PackIsSum(t', d', m', s');
    if Pack(t, d, m, s) == Pack(t', d', m', s') {
      Digits(Pack(t, d, m, s), t % TWO_TO_THE_42, d, m, s);
      Digits(Pack(t', d', m', s'), t' % TWO_TO_THE_42, d', m', s');
    }
  }

  /** On one machine, within the range of the ids, they are ordered as timestamp and sequence are. */
  lemma {:induction false} PackOrder(t: U64, t': U64, d: U64, m: U64, s: U64, s': U64)
    requires InRange(d, m, s) && InRange(d, m, s') && t < TWO_TO_THE_42 && t' < TWO_TO_THE_42
    ensures Pack(t, d, m, s) < Pack(t', d, m, s') <==> t < t' || (t == t' && s < s')
  {
    hide Pack;
    PackIsSum(t, d, m, s);
    PackIsSum(t', d, m, s');
  }

  // ---- The generator ----

  /** Successive readings of the system clock, in milliseconds since the Unix epoch. */
  type Clock = nat -> U64

  /** The clock never stands still for good. */
  ghost predicate Advances(clock: Clock) {
    forall i :: MovesOn(clock, i)
  }

  /** Some reading after the `i`-th shows more. */
  ghost predicate MovesOn(clock: Clock, i: nat) {
    exists j :: j > i && clock(j) > clock(i)
  }

  /** Readings from the epoch on, before the 42 bits run out. */
  ghost predicate Readable(clock: Clock) {
    forall i :: EPOCH <= clock(i) < EPOCH + TWO_TO_THE_42
  }

  datatype Tick = Tick(time: U64, sequence: U64)

  /** The tick after `t`: a later millisecond from sequence 0, or the next sequence of the same one. */
  predicate Follows(t: Tick, t': Tick) {
    (t'.time > t.time && t'.sequence == 0) || (t'.time == t.time && t.sequence < 4095 && t'.sequence == t.sequence + 1)
  }

  predicate Issued(t: Tick) {
    EPOCH <= t.time < EPOCH + TWO_TO_THE_42 && t.sequence < 4096
  }

  function IdOf(datacenter: U64, machine: U64, t: Tick): nat
    requires t.time >= EPOCH
  {
    Pack(t.time - EPOCH, datacenter, machine, t.sequence)
  }

  /** The first reading from `at` on that shows more than `last`; `later` is one that does. */
  ghost function FirstAbove(clock: Clock, at: nat, last: U64, later: nat): (j: nat)
    requires at <= later && clock(later) > last
    ensures at <= j <= later && clock(j) > last && forall i :: at <= i < j ==> clock(i) <= last
    decreases later - at
  {
    if clock(at) > last then at else FirstAbove(clock, at + 1, last, later)
  }

  ghost function LaterThan(clock: Clock, i: nat): (j: nat)
    requires Advances(clock)
    ensures j > i && clock(j) > clock(i)
  {
    assert MovesOn(clock, i);
    var j :| j > i && clock(j) > clock(i);
    j
  }

  /** One call: the tick issued after `t`, if the clock has not gone back, and the reading to go on with. */
  ghost function NextTick(clock: Clock, at: nat, t: Tick): (r: (Option<Tick>, nat))
    requires Advances(clock) && t.sequence < 4096
    ensures r.1 > at
  {
    if clock(at) < t.time then (None, at + 1)
    else if clock(at) > t.time then (Some(Tick(clock(at), 0)), at + 1)
    else if t.sequence < MAX_SEQUENCE_ID then (Some(Tick(t.time, t.sequence + 1)), at + 1)
    else
      var j := FirstAbove(clock, at, t.time, LaterThan(clock, at));
      (Some(Tick(clock(j), 0)), j + 1)
  }

  class Generator {
    const machine: U64
    const datacenter: U64
    var sequence: U64
    var lastTimestamp: U64

    function Last(): Tick
      reads this
    {
      Tick(lastTimestamp, sequence)
    }

    ghost predicate Valid()
      reads this
    {
      machine < 32 && datacenter < 32 && (Last() == Tick(0, 0) || Issued(Last()))
    }

    constructor (machine: U64, datacenter: U64)
      requires machine <= MAX_ID && datacenter <= MAX_ID
      ensures Valid() && Last() == Tick(0, 0) && this.machine == machine && this.datacenter == datacenter
    {
      this.machine, this.datacenter, sequence, lastTimestamp := machine, datacenter, 0, 0;
    }

    /** Reads the clock until it shows more than `last`. */
    static method Spin(clock: Clock, at: nat, last: U64) returns (timestamp: U64, next: nat)
      requires Advances(clock) && clock(at) == last
      ensures next > at + 1 && timestamp == clock(next - 1) > last
      ensures forall j :: at <= j < next - 1 ==> clock(j) <= last
    {
      hide Advances;
      ghost var later := LaterThan(clock, at);
      timestamp, next := last, at + 1;
      while timestamp <= last
        invariant next > at && timestamp == clock(next - 1)
        invariant timestamp <= last ==> next <= later
        invariant forall j :: at <= j < next - 1 ==> clock(j) <= last
        decreases later - next + 1
      {
        timestamp := clock(next);
        next := next + 1;
      }
    }

    /** Reads the clock from position `at` on; `None` stands for the panic on a clock that went backwards. When
        the sequence wraps it spins to the first later millisecond. */
    method NextId(clock: Clock, at: nat) returns (id: Option<nat>, next: nat)
      requires Valid() && Readable(clock) && Advances(clock)
      modifies this
      ensures Valid() && next > at
      ensures id == None <==> clock(at) < old(lastTimestamp)
      ensures id == None ==> Last() == old(Last())
      ensures id.Some? ==> && Issued(Last()) && Follows(old(Last()), Last()) && lastTimestamp == clock(next - 1)
                           && id.value == IdOf(datacenter, machine, Last())
                           && (forall j :: at <= j < next - 1 ==> clock(j) <= old(lastTimestamp))
      ensures (if id == None then None else Some(Last()), next) == NextTick(clock, at, old(Last()))
      ensures id.Some? ==> Reads(id.value, lastTimestamp - 1_704_067_200_000, datacenter, machine, sequence)
    {
      hide Pack, And, Reads, Advances;
      var timestamp := clock(at);
      next := at + 1;
      if timestamp < lastTimestamp {
        return None, next;
      }
      if timestamp == lastTimestamp {
        NextSequence(sequence);
        sequence := And(sequence + 1, MAX_SEQUENCE_ID);
        if sequence == 0 {
          timestamp, next := Spin(clock, at, lastTimestamp);
        }
      } else {
        sequence := 0;
      }
      lastTimestamp := timestamp;
      id := Some(IdOf(datacenter, machine, Last()));
      Unpack(lastTimestamp - EPOCH, datacenter, machine, sequence);
    }
  }

  lemma {:induction false} NextSequence(sequence: U64)
    requires sequence < 4096
    ensures And(sequence + 1, MAX_SEQUENCE_ID) == if sequence < MAX_SEQUENCE_ID then sequence + 1 else 0
  {
    hide And;
    Powers();
    AndOnes(sequence + 1, 12);
  }

  // ---- Runs ----

  /** `n` calls in a row, each reading the clock where the one before left off; `None` if one of them panics. */
  ghost function Ticks(clock: Clock, at: nat, t: Tick, n: nat): Option<seq<Tick>>
    requires Advances(clock) && t.sequence < 4096
    decreases n
  {
    if n == 0 then Some([])
    else
      var (next, after) := NextTick(clock, at, t);
      if next == None then None
      else
        var rest := Ticks(clock, after, next.value, n - 1);
        if rest == None then None else Some([next.value] + rest.value)
  }

  ghost predicate NeverBack(clock: Clock) {
    forall i, j :: i <= j ==> clock(i) <= clock(j)
  }

  predicate Increasing(ids: seq<nat>) {
    forall i, j :: 0 <= i < j < |ids| ==> ids[i] < ids[j]
  }

  function IdsOf(datacenter: U64, machine: U64, ticks: seq<Tick>): (r: seq<nat>)
    requires forall t :: t in ticks ==> t.time >= EPOCH
    ensures |r| == |ticks|
  {
    seq(|ticks|, i requires 0 <= i < |ticks| => IdOf(datacenter, machine, ticks[i]))
  }

  /** The ticks of one generator, each following the one before. */
  predicate Chain(ticks: seq<Tick>) {
    (forall i :: 0 <= i < |ticks| ==> Issued(ticks[i])) && forall i :: 0 < i < |ticks| ==>
        Follows(ticks[i - 1], ticks[i])
  }

  lemma {:induction false} NextTickFollows(clock: Clock, at: nat, t: Tick)
    requires Advances(clock) && Readable(clock) && t.sequence < 4096
    ensures var (next, after) := NextTick(clock, at, t);
            && (next == None <==> clock(at) < t.time)
            && (next.Some? ==> Issued(next.value) && Follows(t, next.value) && next.value.time == clock(after - 1))
  {
    hide Advances;
  }

  /** A call reads the clock once, unless the 4096 ids of that millisecond are used up; then it goes on to the first
      later reading. */
  lemma {:induction false} SpinsIff(clock: Clock, at: nat, t: Tick)
    requires Advances(clock) && t.sequence < 4096
    ensures var (next, after) := NextTick(clock, at, t);
            && (after > at + 1 <==> clock(at) == t.time && t.sequence == 4095)
            && (next.Some? ==> forall j :: at <= j < after - 1 ==> clock(j) <= t.time)
  {
    hide Advances;
  }

  lemma {:induction false} ChainCons(t: Tick, ticks: seq<Tick>)
    requires Issued(t) && Chain(ticks) && (ticks != [] ==> Follows(t, ticks[0]))
    ensures Chain([t] + ticks)
  {
    hide Issued, Follows;
    var all := [t] + ticks;
    forall i | 0 < i < |all|
      ensures Issued(all[i]) && Follows(all[i - 1], all[i])
    {
      assert all[i] == ticks[i - 1];
      assert i > 1 ==> all[i - 1] == ticks[i - 2];
    }
  }

  /** Successive calls form a chain that goes on from the tick before, as long as none panics; on a clock that
      never goes back none does. */
  lemma {:induction false} CallsChain(clock: Clock, at: nat, t: Tick, n: nat)
    requires Advances(clock) && Readable(clock) && t.sequence < 4096
    ensures var r := Ticks(clock, at, t, n);
            && (r.Some? ==> |r.value| == n && Chain(r.value) && (n > 0 ==> Follows(t, r.value[0])))
            && (NeverBack(clock) && (t.time <= clock(at)) ==> r.Some?)
    decreases n
  {
    hide Advances, Readable, NextTick, NeverBack, Chain, Follows;
    if n == 0 {
      EmptyChain();
    } else {
      var (next, after) := NextTick(clock, at, t);
      NextTickFollows(clock, at, t);
      if next.Some? {
        CallsChain(clock, after, next.value, n - 1);
        if Ticks(clock, after, next.value, n - 1).Some? {
          ChainCons(next.value, Ticks(clock, after, next.value, n - 1).value);
        }
        if NeverBack(clock) {
          NotBack(clock, after - 1, after);
        }
      }
    }
  }

  lemma {:induction false} EmptyChain()
    ensures Chain([])
  {
  }

  lemma {:induction false} NotBack(clock: Clock, i: nat, j: nat)
    requires NeverBack(clock) && i <= j
    ensures clock(i) <= clock(j)
  {
  }

  lemma {:induction false} NextIsGreater(datacenter: U64, machine: U64, t: Tick, t': Tick)
    requires datacenter < 32 && machine < 32 && Issued(t) && Issued(t') && Follows(t, t')
    ensures IdOf(datacenter, machine, t) < IdOf(datacenter, machine, t')
  {
    hide Pack;
    PackOrder(t.time - EPOCH, t'.time - EPOCH, datacenter, machine, t.sequence, t'.sequence);
  }

  /** The ids of a chain strictly increase, through every wrap of the sequence. */
  lemma {:induction false} IdsIncrease(datacenter: U64, machine: U64, ticks: seq<Tick>, i: nat, j: nat)
    requires datacenter < 32 && machine < 32 && Chain(ticks) && i < j < |ticks|
    ensures IdOf(datacenter, machine, ticks[i]) < IdOf(datacenter, machine, ticks[j])
    decreases j
  {
    hide IdOf;
    NextIsGreater(datacenter, machine, ticks[j - 1], ticks[j]);
    if i < j - 1 {
      IdsIncrease(datacenter, machine, ticks, i, j - 1);
    }
  }

  lemma {:induction false} ChainTimes(ticks: seq<Tick>)
    requires Chain(ticks)
    ensures forall t :: t in ticks ==> t.time >= EPOCH
  {
  }

  /** Any number of calls of one generator, from a fresh one or after any tick: as long as none panics the ids
      strictly increase, and go on above the last one. On a clock that never goes back no call panics. */
  lemma {:induction false} RunIncreases(datacenter: U64, machine: U64, clock: Clock, at: nat, t: Tick, n: nat)
    requires datacenter < 32 && machine < 32 && Advances(clock) && Readable(clock)
    requires t == Tick(0, 0) || Issued(t)
    ensures var r := Ticks(clock, at, t, n);
            && (NeverBack(clock) && t.time <= clock(at) ==> r.Some?)
            && (r.Some? ==>
                  && |r.value| == n && (forall x :: x in r.value ==> x.time >= EPOCH)
                  && Increasing(IdsOf(datacenter, machine, r.value))
                  && (n > 0 && Issued(t) ==> IdOf(datacenter, machine, t) < IdsOf(datacenter, machine, r.value)[0]))
  {
    hide Advances, Readable, Ticks, NeverBack, IdOf;
    CallsChain(clock, at, t, n);
    var r := Ticks(clock, at, t, n);
    if r.Some? {
      ChainTimes(r.value);
      forall i, j | 0 <= i < j < n
        ensures IdOf(datacenter, machine, r.value[i]) < IdOf(datacenter, machine, r.value[j])
      {
        IdsIncrease(datacenter, machine, r.value, i, j);
      }
      if n > 0 && Issued(t) {
        NextIsGreater(datacenter, machine, t, r.value[0]);
      }
    }
  }

  /** Generators of different machines or datacenters never issue the same id, whatever their clocks. */
  lemma {:induction false} MachinesApart(d: U64, m: U64, t: Tick, d': U64, m': U64, t': Tick)
    requires InRange(d, m, t.sequence) && InRange(d', m', t'.sequence) && (d, m) != (d', m')
    requires t.time >= EPOCH && t'.time >= EPOCH
    ensures IdOf(d, m, t) != IdOf(d', m', t')
  {
    hide Pack;
    SameIdIff(t.time - EPOCH, d, m, t.sequence, t'.time - EPOCH, d', m', t'.sequence);
  }
}
