/** A history, from an empty log, after which the engine never comes back. */
module Outage {
  import opened Types
  import opened Engine
  import opened Runs
  import opened Replay
  import opened Wal
  import opened WalEngines
  import opened Recovery
  import opened Witness

  /** Each command submitted and carried out. */
  function Serving(cmds: seq<Command>): seq<Event> {
    if cmds == [] then [] else Serving(cmds[..|cmds| - 1]) + [Submit(cmds[|cmds| - 1]), CarryOut(0)]
  }

  lemma {:induction false} FinalAppend(encoding: Encoding, sys: System, a: seq<Event>, b: seq<Event>)
    requires AllEnabled(encoding, sys, a) && AllEnabled(encoding, Final(encoding, sys, a), b)
    ensures AllEnabled(encoding, sys, a + b)
    ensures Final(encoding, sys, a + b) == Final(encoding, Final(encoding, sys, a), b)
    decreases a
  {
    hide Next, Enabled;
    if a == [] {
      assert a + b == b;
    } else {
      assert (a + b)[1..] == a[1..] + b;
      FinalAppend(encoding, Next(encoding, sys, a[0]), a[1..], b);
    }
  }

  /** Submitting a command and carrying it out. */
  lemma {:induction false} ServeOne(encoding: Encoding, sys: System, c: Command)
    requires sys.Up? && sys.phase.Idle? && !c.Cancelling?
    ensures AllEnabled(encoding, sys, [Submit(c), CarryOut(0)])
    ensures var (s', r) := Exec(sys.engine, c, 0);
            var log := sys.log + [Sealed(encoding, sys.seqNo + 1, Record(c, None))];
            Final(encoding, sys, [Submit(c), CarryOut(0)])
            == if r.Faulty() then Down(log) else Up(s', log, sys.seqNo + 1, Idle)
  {
    hide Exec, Sealed;
    var logged := Next(encoding, sys, Submit(c));
    assert [Submit(c), CarryOut(0)][1..] == [CarryOut(0)] && [CarryOut(0)][1..] == [];
    assert AllEnabled(encoding, logged, [CarryOut(0)]);
    assert Final(encoding, logged, [CarryOut(0)]) == Next(encoding, logged, CarryOut(0));
  }

  /** Serving commands that do not panic runs the engine through them and logs them. */
  lemma {:induction false} ServingRuns(encoding: Encoding, cmds: seq<Command>)
    requires (forall c :: c in cmds ==> !c.Cancelling?) && RunAll(START, cmds, StoppedClock).fault == None
    ensures AllEnabled(encoding, BOOT, Serving(cmds))
    ensures var sys := Final(encoding, BOOT, Serving(cmds));
            sys.Up? && sys.phase.Idle? && sys.engine == RunAll(START, cmds, StoppedClock).state
              && Commands(sys.log) == cmds
    decreases cmds
  {
    hide RunAll, Exec, AllEnabled, Final, Advance;
    if cmds == [] {
      NothingServed(encoding);
    } else {
      var before, c := cmds[..|cmds| - 1], cmds[|cmds| - 1];
      assert cmds == before + [c];
      RunOneMore(START, before, c, StoppedClock);
      ServingRuns(encoding, before);
      var sys := Final(encoding, BOOT, Serving(before));
      ServeOne(encoding, sys, c);
      FinalAppend(encoding, BOOT, Serving(before), [Submit(c), CarryOut(0)]);
      Onwards(before, c, StoppedClock);
      CommandsAppend(sys.log, Sealed(encoding, sys.seqNo + 1, Record(c, None)));
    }
  }

  lemma {:induction false} NothingServed(encoding: Encoding)
    ensures AllEnabled(encoding, BOOT, Serving([])) && Final(encoding, BOOT, Serving([])) == BOOT
    ensures BOOT == Up(NEW_ENGINE, [], 0, Idle) && Commands([]) == []
    ensures RunAll(START, [], StoppedClock).state == NEW_ENGINE
  {
  }

  /** The commands of the full account, served one by one, take the engine down, and nothing brings it back:
      whatever happens afterwards, every restart panics on the same command again. */
  lemma {:induction false} DownForGood(encoding: Encoding, more: seq<Event>)
    ensures AllEnabled(encoding, BOOT, Serving(Trading(U32_MAX)))
    ensures var sys := Final(encoding, BOOT, Serving(Trading(U32_MAX)));
            && sys.Down? && Commands(sys.log) == Trading(U32_MAX) && AllAdmissible(Commands(sys.log), -1)
            && (AllEnabled(encoding, sys, more) ==> Final(encoding, sys, more) == sys)
  {
    hide RunAll, Exec, AllEnabled, Final, Consistent, AllAdmissible, Offered, Opening;
    var before, c := Opening(U32_MAX) + [PlaceOrder(PAIR, SELL)], PlaceOrder(PAIR, BUY);
    assert Trading(U32_MAX)[..|before|] == before && Trading(U32_MAX)[|before|] == c;
    NoCancels(U32_MAX);
    BeforeTheTrade(U32_MAX, StoppedClock);
    TradingAdmissible(U32_MAX);
    LastSteps(U32_MAX, 0);
    ServingRuns(encoding, before);
    var idle := Final(encoding, BOOT, Serving(before));
    ServeOne(encoding, idle, c);
    FinalAppend(encoding, BOOT, Serving(before), [Submit(c), CarryOut(0)]);
    CommandsAppend(idle.log, Sealed(encoding, idle.seqNo + 1, Record(c, None)));
    var sys := Final(encoding, BOOT, Serving(Trading(U32_MAX)));
    OverflowHappens(U32_MAX, StoppedClock);
    if AllEnabled(encoding, sys, more) {
      StaysDown(encoding, sys.log, more);
    }
  }

  lemma {:induction false} NoCancels(q: Quantity)
    ensures forall c :: c in Opening(q) + [PlaceOrder(PAIR, SELL)] ==> !c.Cancelling?
  {
  }
}
