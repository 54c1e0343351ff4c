/** Crashes: the logged engine as a machine of micro-steps, any of which may be the last before a restart. */
module Recovery {
  import opened Types
  import opened Users
  import opened Engine
  import opened Runs
  import opened Replay
  import opened Wal
  import opened WalEngines

  /** How far the operation in flight has come. */
  datatype Phase =
    | Idle
    | Logged(command: Command)
    | Unlogged(before: State, pair: TradingPair, id: OrderId, success: bool)

  /** `Down`: only the file is left. */
  datatype System = Up(engine: State, log: seq<Entry>, seqNo: nat, phase: Phase) | Down(log: seq<Entry>)

  datatype Event =
    | Submit(command: Command)
    | CarryOut(now: Timestamp)
    | Cancel(pair: TradingPair, id: OrderId)
    | LogCancel
    | Crash
    | Restart(clock: nat -> Timestamp)

  ghost predicate Enabled(sys: System, e: Event) {
    match e
    case Submit(c) => sys.Up? && sys.phase.Idle? && !c.Cancelling?
    case CarryOut(_) => sys.Up? && sys.phase.Logged?
    case Cancel(_, _) => sys.Up? && sys.phase.Idle?
    case LogCancel => sys.Up? && sys.phase.Unlogged?
    case Crash => sys.Up?
    case Restart(_) => sys.Down?
  }

  function Append(encoding: Encoding, sys: System, record: Record, phase: Phase): System
    requires sys.Up?
  {
    Up(sys.engine, sys.log + [Sealed(encoding, sys.seqNo + 1, record)], sys.seqNo + 1, phase)
  }

  /** One micro-step. A panic, while carrying out a command or while replaying, takes the process down. */
  ghost function Next(encoding: Encoding, sys: System, e: Event): System
    requires Enabled(sys, e)
  {
    match e
    case Submit(c) => Append(encoding, sys, Record(c, None), Logged(c))
    case CarryOut(now) =>
      var (s', r) := Exec(sys.engine, sys.phase.command, now);
      if r.Faulty() then Down(sys.log) else sys.(engine := s', phase := Idle)
    case Cancel(pair, id) =>
      var (s', ok) := CancelOrder(sys.engine, pair, id);
      sys.(engine := s', phase := Unlogged(sys.engine, pair, id, ok))
    case LogCancel =>
      Append(encoding, sys, Record(Cancelling(sys.phase.pair, sys.phase.id), Some(sys.phase.success)), Idle)
    case Crash => Down(sys.log)
    case Restart(clock) =>
      var t := RunAll(START, Commands(sys.log), clock);
      if t.fault.Some? then sys else Up(t.state, sys.log, MaxSeq(sys.log), Idle)
  }

  /** Logged cancels tell what replay will answer. */
  ghost predicate Truthful(log: seq<Entry>) {
    forall i :: 0 <= i < |log| && log[i].record.success.Some? && i < |Replayed(log).replies| ==>
      Replayed(log).replies[i] == OrderCancelled(log[i].record.success.value)
  }

  /** How the log stands to the engine in each phase. */
  ghost predicate Consistent(sys: System) {
    && Rising(sys.log) && Truthful(sys.log)
    && (sys.Up? ==>
          && sys.seqNo == MaxSeq(sys.log)
          && match sys.phase
             case Idle => Rebuilds(sys.log, sys.engine)
             case Logged(c) => sys.log != [] && sys.log[|sys.log| - 1].record.command == c
                               && Rebuilds(sys.log[..|sys.log| - 1], sys.engine)
             case Unlogged(before, pair, id, success) =>
               Rebuilds(sys.log, before) && CancelOrder(before, pair, id) == (sys.engine, success))
  }

  const BOOT := Up(NEW_ENGINE, [], 0, Idle)

  lemma {:induction false} BootConsistent()
    ensures Consistent(BOOT)
  {
  }

  // ---- Appending ----

  lemma {:induction false} SealedOne(encoding: Encoding, log: seq<Entry>, record: Record)
    requires Rising(log)
    ensures var e := Sealed(encoding, MaxSeq(log) + 1, record);
            && e.record == record && Rising(log + [e]) && MaxSeq(log + [e]) == MaxSeq(log) + 1
            && (log + [e])[..|log|] == log
  {
    hide Rising, MaxSeq, Digest, Verified;
    var e := Sealed(encoding, MaxSeq(log) + 1, record);
    RisingAppend(log, e);
    MaxSeqAppend(log, e);
  }

  /** The replies of a longer log extend those of a shorter one. */
  lemma {:induction false} MoreReplies(log: seq<Entry>, e: Entry)
    ensures var r, r' := Replayed(log).replies, Replayed(log + [e]).replies;
            r <= r' && |r'| <= |r| + 1 && (Replayed(log).fault.Some? ==> r' == r)
  {
    hide RunAll, Exec;
    CommandsAppend(log, e);
    RunOneMore(START, Commands(log), e.record.command, StoppedClock);
  }

  lemma {:induction false} RepliesPerEntry(cmds: seq<Command>, t: Run, clock: nat -> Timestamp)
    ensures |RunAll(t, cmds, clock).replies| <= |t.replies| + |cmds|
    ensures RunAll(t, cmds, clock).fault == None ==> |RunAll(t, cmds, clock).replies| == |t.replies| + |cmds|
    decreases cmds
  {
    hide Exec;
    if cmds != [] && t.fault == None {
      RepliesPerEntry(cmds[1..], Advance(t, cmds[0], clock(|t.replies|)), clock);
    }
  }

  lemma {:induction false} TruthfulMore(log: seq<Entry>, e: Entry)
    requires Truthful(log)
    requires e.record.success.Some? && |Replayed(log + [e]).replies| > |log| ==>
               Replayed(log + [e]).replies[|log|] == OrderCancelled(e.record.success.value)
    ensures Truthful(log + [e])
  {
    hide RunAll;
    MoreReplies(log, e);
    var r, r', es := Replayed(log).replies, Replayed(log + [e]).replies, log + [e];
    FewReplies(log);
    forall i | 0 <= i < |es| && es[i].record.success.Some? && i < |r'|
      ensures r'[i] == OrderCancelled(es[i].record.success.value)
    {
      if i < |r| {
        assert r[i] == r'[i] && es[i] == log[i];
      }
    }
  }

  lemma {:induction false} FewReplies(log: seq<Entry>)
    ensures |Replayed(log).replies| <= |log|
    ensures Replayed(log).fault == None ==> |Replayed(log).replies| == |log|
  {
    hide RunAll;
    RepliesPerEntry(Commands(log), START, StoppedClock);
  }

  // ---- The invariant ----

  /** Every micro-step keeps the log consistent with the engine, its numbers rising and its cancels truthful. */
  lemma {:induction false} StepLaw(encoding: Encoding, sys: System, e: Event)
    requires Consistent(sys) && Enabled(sys, e)
    ensures Consistent(Next(encoding, sys, e))
  {
    hide Exec, CancelOrder, Rising, Truthful, Rebuilds, RunAll, Sealed, MaxSeq, Commands, Alike, SameReply, Replayed;
    match e
    case Submit(c) =>
      SealedOne(encoding, sys.log, Record(c, None));
      TruthfulMore(sys.log, Sealed(encoding, sys.seqNo + 1, Record(c, None)));
    case CarryOut(now) =>
      LogSplit(sys.log);
      LogOneMore(sys.log[..|sys.log| - 1], sys.engine, sys.log[|sys.log| - 1], now);
    case Cancel(pair, id) =>
    case LogCancel =>
      CancelLogged(encoding, sys);
    case Crash =>
    case Restart(clock) =>
      if RunAll(START, Commands(sys.log), clock).fault == None {
        RebuildsUnder(sys.log, clock);
      }
  }

  lemma {:induction false} LogSplit(log: seq<Entry>)
    requires log != []
    ensures log[..|log| - 1] + [log[|log| - 1]] == log
  {
  }

  lemma {:induction false} CancelLogged(encoding: Encoding, sys: System)
    requires Consistent(sys) && Enabled(sys, LogCancel)
    ensures Consistent(Next(encoding, sys, LogCancel))
  {
    hide CancelOrder, Rising, Truthful, Rebuilds, Sealed, MaxSeq, Replayed, SameReply, Exec, RunAll, Commands, Alike;
    CancelAnswers(sys.phase.before, sys.phase.pair, sys.phase.id, sys.phase.success);
    var record := Record(Cancelling(sys.phase.pair, sys.phase.id), Some(sys.phase.success));
    var e := Sealed(encoding, sys.seqNo + 1, record);
    SealedOne(encoding, sys.log, record);
    LogOneMore(sys.log, sys.phase.before, e, 0);
    FewReplies(sys.log);
    NotPoisoned(sys.log, sys.phase.before);
    var after := Replayed(sys.log + [e]).replies;
    CancelShows(Replayed(sys.log).replies, after, sys.phase.success);
    TruthfulMore(sys.log, e);
  }

  lemma {:induction false} CancelAnswers(before: State, pair: TradingPair, id: OrderId, success: bool)
    requires CancelOrder(before, pair, id).1 == success
    ensures Exec(before, Cancelling(pair, id), 0) == (CancelOrder(before, pair, id).0, OrderCancelled(success))
  {
    hide CancelOrder;
  }

  lemma {:induction false} NotPoisoned(log: seq<Entry>, s: State)
    requires Rebuilds(log, s)
    ensures Replayed(log).fault == None
  {
  }

  // ---- Whole runs ----

  ghost predicate AllEnabled(encoding: Encoding, sys: System, events: seq<Event>)
    decreases events
  {
    events != [] ==> Enabled(sys, events[0]) && AllEnabled(encoding, Next(encoding, sys, events[0]), events[1..])
  }

  ghost function Final(encoding: Encoding, sys: System, events: seq<Event>): System
    requires AllEnabled(encoding, sys, events)
    decreases events
  {
    if events == [] then sys else Final(encoding, Next(encoding, sys, events[0]), events[1..])
  }

  /** Any history of commands, crashes and restarts. */
  lemma {:induction false} HistoryLaw(encoding: Encoding, sys: System, events: seq<Event>)
    requires Consistent(sys) && AllEnabled(encoding, sys, events)
    ensures Consistent(Final(encoding, sys, events))
    decreases events
  {
    hide Consistent, Next;
    if events != [] {
      StepLaw(encoding, sys, events[0]);
      HistoryLaw(encoding, Next(encoding, sys, events[0]), events[1..]);
    }
  }

  /** `back` is `sys` before or after the operation in flight: after it once it is logged, before it when a cancel
      is not logged yet, and `sys` itself when nothing is in flight. A logged command that panics leaves none. */
  ghost predicate BeforeOrAfter(sys: System, back: System, now: Timestamp)
    requires sys.Up?
  {
    && back.log == sys.log && (back.Up? ==> back.phase.Idle? && back.seqNo == MaxSeq(sys.log))
    && match sys.phase
       case Idle => back.Up? && Alike(back.engine, sys.engine)
       case Logged(c) =>
         var (s', r) := Exec(sys.engine, c, now);
         if r.Faulty() then back.Down? else back.Up? && Alike(back.engine, s')
       case Unlogged(before, _, _, _) => back.Up? && Alike(back.engine, before)
  }

  /** A crash at any point and a restart, whatever times the clock reads in replay, bring back the state before or
      after the operation in flight. A panic of the id source while matching is such a crash, after the logging. */
  lemma {:induction false} CrashLaw(encoding: Encoding, sys: System, clock: nat -> Timestamp, now: Timestamp)
    requires Consistent(sys) && sys.Up?
    ensures BeforeOrAfter(sys, Next(encoding, Next(encoding, sys, Crash), Restart(clock)), now)
  {
    hide Exec, CancelOrder, Rising, Truthful, RunAll, MaxSeq, Alike, SameReply;
    AnyClock(sys.log, clock);
    var t := RunAll(START, Commands(sys.log), clock);
    match sys.phase
    case Idle => AlikeSame(t.state, Replayed(sys.log).state, sys.engine);
    case Logged(c) =>
      LogSplit(sys.log);
      LogOneMore(sys.log[..|sys.log| - 1], sys.engine, sys.log[|sys.log| - 1], now);
      AlikeSame(t.state, Replayed(sys.log).state, Exec(sys.engine, c, now).0);
    case Unlogged(before, _, _, _) => AlikeSame(t.state, Replayed(sys.log).state, before);
  }

  /** From an empty log through any history of commands, crashes and restarts: the log stays consistent with the
      engine, and a crash at that point comes back before or after the operation in flight. */
  lemma {:induction false} HistoryFromBoot(encoding: Encoding, events: seq<Event>, clock: nat -> Timestamp,
                                           now: Timestamp)
    requires AllEnabled(encoding, BOOT, events)
    ensures var sys := Final(encoding, BOOT, events);
            && Consistent(sys)
            && (sys.Up? ==> BeforeOrAfter(sys, Next(encoding, Next(encoding, sys, Crash), Restart(clock)), now))
  {
    hide Consistent, BeforeOrAfter, Next, Final, AllEnabled;
    BootConsistent();
    HistoryLaw(encoding, BOOT, events);
    var sys := Final(encoding, BOOT, events);
    if sys.Up? {
      CrashLaw(encoding, sys, clock, now);
    }
  }

  /** An engine brought back from a log of admissible commands satisfies all that holds of reachable states, and
      the only reason for it not to come back is the overflow of a credit. */
  lemma {:induction false} BackReachable(encoding: Encoding, log: seq<Entry>, clock: nat -> Timestamp)
    requires AllAdmissible(Commands(log), -1)
    ensures var t := RunAll(START, Commands(log), clock);
            var back := Next(encoding, Down(log), Restart(clock));
            if back.Up? then Reachable(back.engine, t.gains, t.last) else t.fault == Some(FillFailed(CreditOverflow))
  {
    hide RunAll, Reachable, AllAdmissible, MaxSeq, Commands;
    StartReachable();
    RunLaw(START, Commands(log), clock);
  }

  lemma {:induction false} AlikeSame(s: State, m: State, t: State)
    ensures Alike(m, s) && Alike(m, t) ==> Alike(s, t)
  {
  }

  /** A command that panics is in the log already, so every restart panics on it again: the engine never comes
      back from this log, whatever is tried. */
  lemma {:induction false} PanicIsForGood(encoding: Encoding, sys: System, now: Timestamp, events: seq<Event>)
    requires Consistent(sys) && Enabled(sys, CarryOut(now))
    requires Exec(sys.engine, sys.phase.command, now).1.Faulty()
    requires AllEnabled(encoding, Down(sys.log), events)
    ensures Next(encoding, sys, CarryOut(now)) == Down(sys.log)
    ensures Final(encoding, Down(sys.log), events) == Down(sys.log)
  {
    hide Exec, RunAll, Rebuilds;
    LogSplit(sys.log);
    LogOneMore(sys.log[..|sys.log| - 1], sys.engine, sys.log[|sys.log| - 1], now);
    StaysDown(encoding, sys.log, events);
  }

  lemma {:induction false} StaysDown(encoding: Encoding, log: seq<Entry>, events: seq<Event>)
    requires Poisoned(log) && AllEnabled(encoding, Down(log), events)
    ensures Final(encoding, Down(log), events) == Down(log)
    decreases events
  {
    hide RunAll, SameReply, Alike, Poisoned;
    if events != [] {
      assert events[0].Restart?;
      PoisonAnyClock(log, events[0].clock);
      StaysDown(encoding, log, events[1..]);
    }
  }

  lemma {:induction false} PoisonAnyClock(log: seq<Entry>, clock: nat -> Timestamp)
    requires Poisoned(log)
    ensures RunAll(START, Commands(log), clock).fault.Some?
  {
    hide RunAll;
    AnyClock(log, clock);
  }
}
