/** The durable engine: every operation is logged, and opening the log rebuilds the engine. */
module WalEngines {
  import opened Types
  import opened Engine
  import opened Runs
  import opened CoreEngines
  import opened Replay
  import opened Wal

  function Commands(es: seq<Entry>): (r: seq<Command>)
    ensures |r| == |es|
  {
    seq(|es|, i requires 0 <= i < |es| => es[i].record.command)
  }

  lemma {:induction false} CommandsAppend(es: seq<Entry>, e: Entry)
    ensures Commands(es + [e]) == Commands(es) + [e.record.command]
  {
  }

  function StoppedClock(i: nat): Timestamp {
    0
  }

  /** The run that replaying `es` performs; by `ReplayLaw` the clock does not matter. */
  ghost function Replayed(es: seq<Entry>): Run {
    RunAll(START, Commands(es), StoppedClock)
  }

  /** Replaying `es` rebuilds `s`, up to timestamps of orders. */
  ghost predicate Rebuilds(es: seq<Entry>, s: State) {
    Replayed(es).fault == None && Alike(Replayed(es).state, s)
  }

  /** Replaying `es` panics. */
  ghost predicate Poisoned(es: seq<Entry>) {
    Replayed(es).fault.Some?
  }

  /** A log that rebuilds the engine does so again once a command is carried out and logged; if the command
      panics, replaying it panics too. */
  lemma {:induction false} LogOneMore(es: seq<Entry>, s: State, e: Entry, now: Timestamp)
    requires Rebuilds(es, s)
    ensures var (s', r) := Exec(s, e.record.command, now);
            if r.Faulty() then Poisoned(es + [e]) else Rebuilds(es + [e], s')
    ensures |Replayed(es + [e]).replies| == |Replayed(es).replies| + 1
            && Replayed(es).replies <= Replayed(es + [e]).replies
    ensures SameReply(Replayed(es + [e]).replies[|Replayed(es).replies|], Exec(s, e.record.command, now).1)
  {
    hide Exec, RunAll, SameReply, Alike, NextGains;
    var t, c := Replayed(es), e.record.command;
    CommandsAppend(es, e);
    RunOneMore(START, Commands(es), c, StoppedClock);
    ExecAlike(t.state, s, c, StoppedClock(|t.replies|), now);
    assert Replayed(es + [e]) == Advance(t, c, StoppedClock(|t.replies|));
  }

  /** Any clock rebuilds the same. */
  lemma {:induction false} AnyClock(es: seq<Entry>, clock: nat -> Timestamp)
    ensures SameRun(Replayed(es), RunAll(START, Commands(es), clock))
  {
    hide RunAll;
    ReplayLaw(START, START, Commands(es), StoppedClock, clock);
  }

  lemma {:induction false} RebuildsUnder(es: seq<Entry>, clock: nat -> Timestamp)
    requires RunAll(START, Commands(es), clock).fault == None
    ensures Rebuilds(es, RunAll(START, Commands(es), clock).state)
  {
    hide RunAll, Alike, SameReply;
    AnyClock(es, clock);
  }

  lemma {:induction false} ReaderApart(core: CoreEngine, reader: WalReader)
    ensures reader !in core.Repr()
  {
  }

  /** The engine's objects are neither the log file nor its writer. */
  lemma {:induction false} LogApart(core: CoreEngine, writer: WalWriter)
    ensures writer !in core.Repr() && writer.file !in core.Repr()
    ensures core in core.Repr() && core.orderbooks.Values <= core.Repr() && core.users.Values <= core.Repr()
  {
  }

  class WalEngine {
    const inner: CoreEngine
    const writer: WalWriter

    ghost function Entries(): seq<Entry>
      reads writer.file
    {
      Accepted(writer.encoding, writer.file.lines)
    }

    /** The log reads without error, its numbers rise, and the writer continues above them. */
    ghost predicate Valid()
      reads inner, writer, writer.file
    {
      && inner.Valid()
      && ReadError !in writer.file.lines
      && Rising(Entries()) && writer.seqNo == MaxSeq(Entries())
    }

    /** Opening the log now would rebuild this engine. */
    ghost predicate Durable()
      reads inner, inner.orderbooks.Values, inner.users.Values, writer.file
    {
      Rebuilds(Entries(), inner.Value())
    }

    constructor (inner: CoreEngine, writer: WalWriter)
      ensures this.inner == inner && this.writer == writer
    {
      this.inner, this.writer := inner, writer;
    }

    /** Applies a logged command; its answer is dropped, whatever it is, unless it is a panic. */
    static method ReplayEntry(core: CoreEngine, e: Entry, now: Timestamp, stamp: nat -> Stamp) returns (panicked: bool)
      requires core.Valid()
      modifies core.Repr()
      ensures core.Valid() && forall o :: o in core.Repr() ==> o in old(core.Repr()) || fresh(o)
      ensures var (s', r) := Exec(old(core.Value()), e.record.command, now);
              panicked == r.Faulty() && (!panicked ==> core.Value() == s')
    {
      hide Exec, Responds, CoreEngine.Repr;
      ghost var reply := Exec(core.Value(), e.record.command, now).1;
      var response := core.Apply(e.record.command, now, stamp);
      PanicShows(response, reply, stamp);
      panicked := response.Placement? && response.answer.Panic?;
    }

    /** Replays what can be read and finds the highest number. A panic leaves no engine. */
    static method Recover(file: LogFile, encoding: Encoding, clock: nat -> Timestamp, stamps: nat -> nat -> Stamp)
      returns (core: CoreEngine?, maxSeq: nat)
      ensures var es := Accepted(encoding, file.lines);
              var t := RunAll(START, Commands(es), clock);
              if t.fault.Some? then core == null
              else core != null && core.Valid() && fresh(core.Repr()) && core.Value() == t.state && maxSeq == MaxSeq(es)
    {
      hide *;
      core := new CoreEngine();
      var reader := new WalReader(file, encoding);
      ghost var es, done: seq<Entry>, t := Accepted(encoding, file.lines), [], START;
      var i := 0;
      maxSeq := 0;
      StartRun(clock);
      var entry := reader.Next();
      FirstUnread(es, entry, Accepted(encoding, reader.lines));
      while entry.Some?
        invariant Unread(es, done, entry, Accepted(encoding, reader.lines))
        invariant core != null && core.Valid() && fresh(core.Repr()) && fresh(reader)
        invariant t == RunAll(START, Commands(done), clock) && t.fault == None && i == |t.replies|
        invariant core.Value() == t.state
        invariant maxSeq == MaxSeq(done)
        decreases |reader.lines|, entry.Some?
      {
        var e := entry.value;
        ReplayStep(done, e, clock);
        ghost var rest := Accepted(encoding, reader.lines);
        ReaderApart(core, reader);
        var panicked := ReplayEntry(core, e, clock(i), stamps(i));
        if panicked {
          ReplayStops(es, done, e, rest, clock);
          return null, 0;
        }
        MaxSeqAppend(done, e);
        if e.seqNo > maxSeq {
          maxSeq := e.seqNo;
        }
        entry := reader.Next();
        NextUnread(es, done, e, rest, entry, Accepted(encoding, reader.lines));
        done, i := done + [e], i + 1;
        t := RunAll(START, Commands(done), clock);
      }
      AllRead(es, done, entry, Accepted(encoding, reader.lines));
    }

    /** Replays the log, then continues behind its highest number. */
    static method Open(file: LogFile, encoding: Encoding, clock: nat -> Timestamp, stamps: nat -> nat -> Stamp)
      returns (engine: WalEngine?)
      ensures var es := Accepted(encoding, file.lines);
              if Poisoned(es) then engine == null
              else
                && engine != null && fresh(engine) && fresh(engine.writer) && fresh(engine.inner.Repr())
                && engine.writer.file == file && engine.writer.encoding == encoding
                && engine.inner.Valid() && engine.writer.seqNo == MaxSeq(es) && engine.Durable()
    {
      hide RunAll, Accepted, MaxSeq, Alike, SameReply, CoreEngine.Value, CoreEngine.Valid, CoreEngine.Repr, Commands,
        Rebuilds;
      ghost var es := Accepted(encoding, file.lines);
      AnyClock(es, clock);
      var core, maxSeq := Recover(file, encoding, clock, stamps);
      if core == null {
        return null;
      }
      RebuildsUnder(es, clock);
      var writer := new WalWriter(file, encoding);
      writer.SetSeq(maxSeq);
      engine := new WalEngine(core, writer);
    }

    /** Log, then apply: every operation but cancel. */
    method Submit(c: Command, now: Timestamp, stamp: nat -> Stamp) returns (response: Response)
      requires Valid() && !c.Cancelling?
      modifies writer, writer.file, inner.Repr()
      ensures Valid() && forall o :: o in inner.Repr() ==> o in old(inner.Repr()) || fresh(o)
      ensures Entries() == old(Entries()) + [Sealed(writer.encoding, writer.seqNo, Record(c, None))]
      ensures writer.seqNo == old(writer.seqNo) + 1
      ensures var (s', r) := Exec(old(inner.Value()), c, now);
              && Responds(response, r, stamp) && (!r.Faulty() ==> inner.Value() == s')
              && (old(Durable()) ==> if r.Faulty() then Poisoned(Entries()) else Durable())
    {
      hide RunAll, Exec, Accepted, MaxSeq, Alike, SameReply, Responds, Rising, Rebuilds, Poisoned, Sealed, Replayed,
        Commands, CoreEngine.Value, CoreEngine.Valid, CoreEngine.Repr;
      LogApart(inner, writer);
      LogGrows(writer.encoding, writer.file.lines, writer.seqNo, Record(c, None));
      var number := writer.Write(Record(c, None));
      if old(Durable()) {
        SealedNumber(writer.encoding, number, Record(c, None));
        LogOneMore(old(Entries()), inner.Value(), Sealed(writer.encoding, number, Record(c, None)), now);
      }
      response := inner.Apply(c, now, stamp);
    }

    /** Apply, then log with the outcome. */
    method CancelOrder(pair: TradingPair, id: OrderId) returns (success: bool)
      requires Valid()
      modifies writer, writer.file, inner.Repr()
      ensures Valid() && forall o :: o in inner.Repr() ==> o in old(inner.Repr()) || fresh(o)
      ensures Entries() == old(Entries())
              + [Sealed(writer.encoding, writer.seqNo, Record(Cancelling(pair, id), Some(success)))]
      ensures writer.seqNo == old(writer.seqNo) + 1
      ensures (inner.Value(), success) == Engine.CancelOrder(old(inner.Value()), pair, id)
      ensures old(Durable()) ==> Durable()
      ensures old(Durable()) ==>
                Replayed(Entries()).replies == Replayed(old(Entries())).replies + [OrderCancelled(success)]
    {
      hide RunAll, Accepted, MaxSeq, Alike, SameReply, Engine.CancelOrder, Rising, Rebuilds, Poisoned, Sealed,
        Replayed, Commands,
        CoreEngine.Value, CoreEngine.Valid, CoreEngine.Repr;
      LogApart(inner, writer);
      success := inner.CancelOrder(pair, id);
      var record := Record(Cancelling(pair, id), Some(success));
      LogGrows(writer.encoding, writer.file.lines, writer.seqNo, record);
      var number := writer.Write(record);
      if old(Durable()) {
        SealedNumber(writer.encoding, number, record);
        LogOneMore(old(Entries()), old(inner.Value()), Sealed(writer.encoding, number, record), 0);
        CancelShows(Replayed(old(Entries())).replies, Replayed(Entries()).replies, success);
      }
    }
  }

  lemma {:induction false} PanicShows(response: Response, reply: Reply, stamp: nat -> Stamp)
    requires Responds(response, reply, stamp)
    ensures response.Placement? && response.answer.Panic? <==> reply.Faulty()
  {
    hide Recorded;
  }

  lemma {:induction false} CancelShows(before: seq<Reply>, after: seq<Reply>, success: bool)
    requires |after| == |before| + 1 && before <= after && SameReply(after[|before|], OrderCancelled(success))
    ensures after == before + [OrderCancelled(success)]
  {
    assert UntimedReply(after[|before|]) == OrderCancelled(success);
  }

  /** Writing extends what is read by exactly the entry, above all numbers before it. */
  lemma {:induction false} LogGrows(encoding: Encoding, lines: seq<Line>, seqNo: nat, record: Record)
    requires ReadError !in lines && Rising(Accepted(encoding, lines)) && seqNo == MaxSeq(Accepted(encoding, lines))
    ensures var e := Sealed(encoding, seqNo + 1, record);
            var es := Accepted(encoding, lines + [Parsed(e)]);
            && ReadError !in lines + [Parsed(e)]
            && es == Accepted(encoding, lines) + [e] && Rising(es) && MaxSeq(es) == seqNo + 1
  {
    hide Accepted, MaxSeq, Rising, Sealed, Verified;
    var e := Sealed(encoding, seqNo + 1, record);
    var es := Accepted(encoding, lines);
    AcceptedAppend(encoding, lines, Parsed(e));
    AcceptedOne(encoding, e);
    SealedNumber(encoding, seqNo + 1, record);
    RisingAppend(es, e);
    MaxSeqAppend(es, e);
  }

  lemma {:induction false} AcceptedOne(encoding: Encoding, e: Entry)
    requires Verified(encoding, e)
    ensures Accepted(encoding, [Parsed(e)]) == [e]
  {
    hide Verified;
    assert [Parsed(e)][1..] == [];
  }

  lemma {:induction false} SealedNumber(encoding: Encoding, seqNo: nat, record: Record)
    ensures Sealed(encoding, seqNo, record).seqNo == seqNo && Sealed(encoding, seqNo, record).record == record
  {
  }

  lemma {:induction false} StartRun(clock: nat -> Timestamp)
    ensures RunAll(START, Commands([]), clock) == START && MaxSeq([]) == 0
    ensures START.fault == None && START.replies == [] && START.state == NEW_ENGINE
  {
  }

  lemma {:induction false} ReplayStep(done: seq<Entry>, e: Entry, clock: nat -> Timestamp)
    requires RunAll(START, Commands(done), clock).fault == None
    ensures var t := RunAll(START, Commands(done), clock);
            var (s', r) := Exec(t.state, e.record.command, clock(|t.replies|));
            var t' := RunAll(START, Commands(done + [e]), clock);
            && |t'.replies| == |t.replies| + 1
            && (if r.Faulty() then t'.fault.Some? else t'.fault == None && t'.state == s')
  {
    hide RunAll, Exec;
    CommandsAppend(done, e);
    RunOneMore(START, Commands(done), e.record.command, clock);
  }

  // ---- The reader's progress ----

  /** Of `es`, `done` is replayed, `entry` is in hand and `rest` follows. */
  predicate Unread(es: seq<Entry>, done: seq<Entry>, entry: Option<Entry>, rest: seq<Entry>) {
    es == done + (if entry.Some? then [entry.value] + rest else [])
  }

  lemma {:induction false} FirstUnread(es: seq<Entry>, entry: Option<Entry>, rest: seq<Entry>)
    requires es == if entry.Some? then [entry.value] + rest else []
    ensures Unread(es, [], entry, rest)
  {
    assert [] + es == es;
  }

  lemma {:induction false} NextUnread(es: seq<Entry>, done: seq<Entry>, e: Entry, rest: seq<Entry>,
                                      entry: Option<Entry>, rest': seq<Entry>)
    requires Unread(es, done, Some(e), rest) && rest == if entry.Some? then [entry.value] + rest' else []
    ensures Unread(es, done + [e], entry, rest')
  {
    assert done + ([e] + rest) == done + [e] + rest;
  }

  lemma {:induction false} AllRead(es: seq<Entry>, done: seq<Entry>, entry: Option<Entry>, rest: seq<Entry>)
    requires Unread(es, done, entry, rest) && entry == None
    ensures es == done
  {
  }

  /** A panic ends the replay, whatever follows in the log. */
  lemma {:induction false} ReplayStops(es: seq<Entry>, done: seq<Entry>, e: Entry, rest: seq<Entry>,
                                       clock: nat -> Timestamp)
    requires Unread(es, done, Some(e), rest) && RunAll(START, Commands(done + [e]), clock).fault.Some?
    ensures RunAll(START, Commands(es), clock).fault.Some?
  {
    hide RunAll, Commands;
    assert es == done + [e] + rest;
    StaysStopped(done + [e], rest, clock);
  }

  lemma {:induction false} StaysStopped(done: seq<Entry>, rest: seq<Entry>, clock: nat -> Timestamp)
    requires RunAll(START, Commands(done), clock).fault.Some?
    ensures RunAll(START, Commands(done + rest), clock).fault.Some?
    decreases rest
  {
    hide RunAll, Advance, Commands;
    if rest == [] {
      assert done + rest == done;
    } else {
      CommandsAppend(done, rest[0]);
      RunOneMore(START, Commands(done), rest[0].record.command, clock);
      StaysStopped(done + [rest[0]], rest[1..], clock);
      assert done + [rest[0]] + rest[1..] == done + rest;
    }
  }
}
