/** When doubling the reconnect delay overflows a 32-bit integer. */
module DriverOverflow {
  import opened Prelude
  import opened Backoff
  import opened ConfigValues
  import opened BusConfig
  import opened DriverLink
  import opened DriverModel
  import opened DriverInvariants
  import opened DriverResults
  import opened DriverTraps

  /** The thread is about to attempt to connect, with the delay doubled `k` times. */
  predicate Attempting(c: Settings, d: Driver, k: nat) {
    d.pc.Turn? && Idle(c, d) && ShouldAttempt(c, d) && d.clock.delay == DelayAfter(c.initialDelay, c.maxDelay, k)
  }

  predicate Idle(c: Settings, d: Driver) {
    !d.stopRequested && !d.link.connected && d.queue.local == [] && d.queue.commands == []
  }

  lemma FirstAttempt(c: Settings, config: Config) returns (d: Driver)
    ensures Reachable(c, config, d) && Attempting(c, d, 0)
  {
    var i := Initial(c, config);
    ReachInitial(c, config);
    hide Reachable;
    ReachStep(c, config, i, Start(true));
    var s := Step(c, i, Start(true));
    TurnIdle(c, config, s);
    d := s.(pc := Turn);
  }

  /** A failed attempt, the wait it asks for, and the next attempt. */
  lemma NextAttempt(c: Settings, config: Config, d: Driver, k: nat) returns (d': Driver)
    requires Reachable(c, config, d) && Attempting(c, d, k) && c.enabled
    ensures Reachable(c, config, d') && Attempting(c, d', k + 1)
  {
    hide Reachable;
    ReachStep(c, config, d, Attempt(false));
    var f := Step(c, d, Attempt(false));
    var ms := if d.clock.delay < 0 then 0 else d.clock.delay;
    ReachStep(c, config, f, Tick(ms));
    var t := Step(c, f, Tick(ms));
    TurnIdle(c, config, t);
    d' := t.(pc := Turn);
  }

  lemma {:induction false} AttemptAfter(c: Settings, config: Config, k: nat) returns (d: Driver)
    requires c.enabled
    ensures Reachable(c, config, d) && Attempting(c, d, k)
  {
    hide Reachable, Attempting;
    if k == 0 {
      d := FirstAttempt(c, config);
    } else {
      d := AttemptAfter(c, config, k - 1);
      d := NextAttempt(c, config, d, k - 1);
    }
  }

  /** A run to a doubling that does not fit. */
  lemma Overflows(c: Settings, config: Config) returns (d: Driver)
    requires !BackoffGuard(c)
    ensures Reachable(c, config, d) && AboutToBackOff(c, d) && !FitsInt32(d.clock.delay * 2)
  {
    hide Reachable;
    if c.enabled {
      var k := SomeDoublingOverflows(c.initialDelay, c.maxDelay);
      d := AttemptAfter(c, config, k);
    } else {
      d := FirstAttempt(c, config);
    }
  }

  /** In no run does a doubling overflow, exactly when: with reconnecting on, neither delay is negative and
      there is no delay at all or both are below 2^30; with it off, doubling the initial delay once fits. */
  lemma BackoffFitsIff(c: Settings, config: Config)
    requires Consistent(config)
    ensures (forall d :: Reachable(c, config, d) && AboutToBackOff(c, d) ==> FitsInt32(d.clock.delay * 2)) <==>
              if c.enabled
              then 0 <= c.initialDelay && 0 <= c.maxDelay &&
                   (c.initialDelay == 0 || (c.initialDelay < TWO_TO_THE_30 && c.maxDelay < TWO_TO_THE_30))
              else -TWO_TO_THE_30 <= c.initialDelay < TWO_TO_THE_30
  {
    if BackoffGuard(c) {
      forall d | Reachable(c, config, d) && AboutToBackOff(c, d) ensures FitsInt32(d.clock.delay * 2) {
        ReachableInv(c, config, d);
        BackingOffFits(c, d);
      }
    } else {
      var d := Overflows(c, config);
    }
  }

  /** The same from the configuration text, for delays that survive their casts. */
  lemma ConfiguredBackoffFitsIff(root: ConfigValue)
    requires BusConfigOf(root).Ok? && ParseTiming(root).value.max < TWO_TO_THE_31
    ensures var config, t := BusConfigOf(root).value, ParseTiming(root).value;
            var c := SettingsOf(config);
            (forall d :: Reachable(c, config, d) && AboutToBackOff(c, d) ==> FitsInt32(d.clock.delay * 2)) <==>
              if t.enabled then t.max < TWO_TO_THE_30 || t.initial == 0 else t.initial < TWO_TO_THE_30
  {
    var config := BusConfigOf(root).value;
    AcceptedIsConsistent(root);
    DelaysSurviveIff(root);
    SwitchSurvives(root);
    TimingIsOrdered(root);
    hide Consistent, BusConfigOf, ParseTiming, Reachable, AboutToBackOff;
    BackoffFitsIff(SettingsOf(config), config);
  }

  lemma TimingIsOrdered(root: ConfigValue)
    requires BusConfigOf(root).Ok?
    ensures 0 <= ParseTiming(root).value.initial <= ParseTiming(root).value.max
  {
  }

  /** Whatever 32-bit delays violate the condition, negative ones included: the parser accepts a
      configuration that gives the driver these delays, and a run of it overflows. */
  lemma AcceptedDelaysOverflow(c: Settings)
    requires FitsInt32(c.initialDelay) && FitsInt32(c.maxDelay) && !BackoffGuard(c)
    ensures exists root, d ::
              && BusConfigOf(root).Ok? && SettingsOf(BusConfigOf(root).value) == c
              && Reachable(c, BusConfigOf(root).value, d) && AboutToBackOff(c, d) && !FitsInt32(d.clock.delay * 2)
  {
    var root := AnyDelaysAreAccepted(c.enabled, c.initialDelay, c.maxDelay);
    hide Reachable, AboutToBackOff, BackoffGuard;
    var d := Overflows(c, BusConfigOf(root).value);
  }
}
