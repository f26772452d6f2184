/** When a stop returns. */
module DriverStop {
  import opened Prelude
  import opened DriverModel
  import opened DriverInvariants
  import opened DriverResults
  import opened DriverTraps

  /** The driver thread can still be joined from here. */
  ghost predicate CanBeJoined(c: Settings, d: Driver) { exists run, d' :: Runs(c, d, run, d') && d'.pc.NoThread? }

  lemma AfterStep(c: Settings, d: Driver, e: Event)
    requires Enabled(c, d, e) && CanBeJoined(c, Step(c, d, e))
    ensures CanBeJoined(c, d)
  {
    hide Enabled, Step;
    var run, d' :| Runs(c, Step(c, d, e), run, d') && d'.pc.NoThread?;
    assert ([e] + run)[1..] == run;
    assert Runs(c, d, [e] + run, d');
  }

  lemma {:induction false} AfterRun(c: Settings, d: Driver, run: seq<Event>, mid: Driver)
    requires Runs(c, d, run, mid) && CanBeJoined(c, mid)
    ensures CanBeJoined(c, d)
    decreases |run|
  {
    hide Enabled, Step, CanBeJoined;
    if run != [] {
      AfterRun(c, Step(c, d, run[0]), run[1..], mid);
      AfterStep(c, d, run[0]);
    }
  }

  lemma FromNoThread(c: Settings, d: Driver)
    requires d.pc.NoThread?
    ensures CanBeJoined(c, d)
  {
    assert Runs(c, d, [], d);
  }

  lemma FromExited(c: Settings, d: Driver)
    requires d.pc.Exited? && d.stopRequested
    ensures CanBeJoined(c, d)
  {
    FromNoThread(c, Step(c, d, Join));
    AfterStep(c, d, Join);
  }

  lemma FromHead(c: Settings, d: Driver)
    requires d.pc.Head? && d.stopRequested
    ensures CanBeJoined(c, d)
  {
    var failing := Step(c, d, LoopTest);
    FromExited(c, Step(c, failing, DropNow));
    AfterStep(c, failing, DropNow);
    AfterStep(c, d, LoopTest);
  }

  lemma FromFailing(c: Settings, d: Driver)
    requires d.pc.Failing? && d.stopRequested
    ensures CanBeJoined(c, d)
  {
    var next := Step(c, d, DropNow);
    if d.pc.last { FromExited(c, next); } else { FromHead(c, next); }
    AfterStep(c, d, DropNow);
  }

  lemma FromPump(c: Settings, d: Driver)
    requires d.pc.Pump? && d.stopRequested
    ensures CanBeJoined(c, d)
  {
    var next := Step(c, d, EndPump);
    if next.pc.Head? { FromHead(c, next); } else { FromFailing(c, next); }
    AfterStep(c, d, EndPump);
  }

  lemma FromTurn(c: Settings, d: Driver)
    requires d.pc.Turn? && d.stopRequested
    ensures CanBeJoined(c, d)
  {
    if d.link.connected {
      FromPump(c, Step(c, d, BeginPump));
      AfterStep(c, d, BeginPump);
    } else if ShouldAttempt(c, d) {
      FromHead(c, Step(c, d, Attempt(false)));
      AfterStep(c, d, Attempt(false));
    } else {
      FromHead(c, Step(c, d, SkipAttempt));
      AfterStep(c, d, SkipAttempt);
    }
  }

  lemma FromDrain(c: Settings, d: Driver)
    requires d.pc.Drain? && d.stopRequested
    ensures CanBeJoined(c, d)
  {
    hide CanBeJoined;
    var run, turn := DrainsCompletely(c, d);
    FromTurn(c, turn);
    AfterRun(c, d, run, turn);
  }

  lemma FromSwap(c: Settings, d: Driver)
    requires d.pc.Swap? && d.stopRequested
    ensures CanBeJoined(c, d)
  {
    FromDrain(c, Step(c, d, SwapQueue));
    AfterStep(c, d, SwapQueue);
  }

  /** Once a stop is requested it can return exactly when the driver thread does not wait for itself. */
  lemma StopReturnsIff(c: Settings, d: Driver)
    requires d.stopRequested
    ensures CanBeJoined(c, d) <==> !d.pc.SelfWait?
  {
    if d.pc.SelfWait? {
      forall run, d' | Runs(c, d, run, d') ensures d'.pc.SelfWait? { WaitingRun(c, d, run, d'); }
    } else {
      match d.pc
      case NoThread => FromNoThread(c, d);
      case Head => FromHead(c, d);
      case Swap => FromSwap(c, d);
      case Drain => FromDrain(c, d);
      case Turn => FromTurn(c, d);
      case Pump => FromPump(c, d);
      case Failing(_) => FromFailing(c, d);
      case Exited => FromExited(c, d);
    }
  }
}
