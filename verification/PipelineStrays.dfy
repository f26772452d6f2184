/** Which results count as completions: the scheduler counts every identifier in the result map, whether
    or not it names a task that this run has published. */
module PipelineStrays {
  import opened Prelude
  import opened MessageCodec
  import opened PipelineModel
  import opened PipelineSafety
  import opened PipelineResults
  import opened PipelineProgress

  /** The published tasks whose result is in. */
  function Completed(c: Limits, s: State): int { |s.published| - Awaited(c.scenario, s.published, s.received) }

  predicate IsOwn(c: Limits, s: State, id: string) { exists i :: i in s.published && TaskId(c.scenario, i) == id }

  /** The identifiers in the map that name no published task. */
  function Strays(c: Limits, s: State): set<string> { set id | id in s.received && !IsOwn(c, s, id) }

  /** Every identifier of a set that names one of these tasks is the result of another one of them. */
  lemma {:induction false} OwnResultsFit(scenario: string, q: seq<nat>, received: map<string, ResultMessage>, own: set<string>)
    requires own <= received.Keys && forall id :: id in own ==> exists i :: i in q && TaskId(scenario, i) == id
    ensures |own| <= |q| - Awaited(scenario, q, received)
  {
    hide TaskId;
    if q == [] {
      assert own == {};
    } else {
      var id := TaskId(scenario, q[0]);
      var rest := own - {id};
      forall k | k in rest ensures exists i :: i in q[1..] && TaskId(scenario, i) == k {
        var i :| i in q && TaskId(scenario, i) == k;
        assert i in q[1..];
      }
      OwnResultsFit(scenario, q[1..], received, rest);
      if id in own { assert own == rest + {id}; } else { assert own == rest; }
    }
  }

  lemma CountedAreOwnOrStray(c: Limits, s: State)
    ensures |s.received| <= Completed(c, s) + |Strays(c, s)|
  {
    var own := s.received.Keys - Strays(c, s);
    assert s.received.Keys == own + Strays(c, s);
    OwnResultsFit(c.scenario, s.published, s.received, own);
  }

  /** ... and of different tasks, which have different identifiers, no two share one. */
  lemma {:induction false} AnsweredTasksFit(scenario: string, q: seq<nat>, received: map<string, ResultMessage>, own: set<string>)
    requires forall i: nat :: Occurs(q, i) <= 1
    requires forall i :: i in q && TaskId(scenario, i) in received ==> TaskId(scenario, i) in own
    ensures |q| - Awaited(scenario, q, received) <= |own|
  {
    if q != [] {
      var id := TaskId(scenario, q[0]);
      assert Occurs(q, q[0]) == 1 + Occurs(q[1..], q[0]);
      OccursIn(q[1..], q[0]);
      forall i: nat ensures Occurs(q[1..], i) <= 1 { assert Occurs(q, i) <= 1; }
      var rest := if id in received then own - {id} else own;
      forall i | i in q[1..] && TaskId(scenario, i) in received ensures TaskId(scenario, i) in rest {
        TaskIdTellsIndex(scenario, i, q[0]);
        assert i in q;
      }
      AnsweredTasksFit(scenario, q[1..], received, rest);
    }
  }

  /** The scheduler counts the answered tasks and the strays, each once. */
  lemma CountedIsOwnAndStray(c: Limits, s: State)
    requires ValidLimits(c) && Reachable(c, s)
    ensures |s.received| == Completed(c, s) + |Strays(c, s)|
  {
    ReachableInv(c, s);
    CountedAreOwnOrStray(c, s);
    var own := s.received.Keys - Strays(c, s);
    assert s.received.Keys == own + Strays(c, s);
    forall i: nat ensures Occurs(s.published, i) <= 1 { assert PlacesOf(s, i) == One(i < s.next); }
    hide Inv;
    forall i | i in s.published && TaskId(c.scenario, i) in s.received ensures TaskId(c.scenario, i) in own {
      assert IsOwn(c, s, TaskId(c.scenario, i));
    }
    AnsweredTasksFit(c.scenario, s.published, s.received, own);
  }

  /** So the test that the scheduler makes, on present values, lets a task in exactly while the published
      tasks without a result are fewer than the limit plus the strays. */
  lemma InflightTestIff(c: Limits, s: State)
    requires ValidLimits(c) && Reachable(c, s)
    ensures HasRoom(c, |s.scheduled|, |s.ready|, |s.received|, s.publishedCount) <==>
              |s.scheduled| < c.maxScheduled && |s.ready| < c.maxReady &&
              s.publishedCount - Completed(c, s) < c.maxInflight + |Strays(c, s)|
  {
    CountedIsOwnAndStray(c, s);
  }

  /** Tasks admitted and not yet answered stay within the third bound, except that every stray result
      lets one more in. */
  lemma UnansweredTasksAreBounded(c: Limits, s: State)
    requires ValidLimits(c) && Reachable(c, s)
    ensures s.next - Completed(c, s)
         <= c.maxScheduled + c.maxReady + c.maxInflight + c.writers + c.publishers - 2 + |Strays(c, s)|
  {
    BackpressureBounds(c, s);
    CountedAreOwnOrStray(c, s);
  }

  // ---- and every stray result does let one in ----

  /** Results left over from a longer run of the same name. */
  function LeftOver(c: Limits, k: nat): ResultMessage { AnswerTo(c, c.tasks + k) }

  function Spoilt(c: Limits, n: nat): map<string, ResultMessage> {
    if n == 0 then map[] else Spoilt(c, n - 1)[LeftOver(c, n - 1).taskId := LeftOver(c, n - 1)]
  }

  /** Of the tasks' identifiers the map holds those beyond the last task of this run. */
  lemma {:induction false} SpoiltIds(c: Limits, n: nat, i: nat)
    ensures TaskId(c.scenario, i) in Spoilt(c, n) <==> c.tasks <= i < c.tasks + n
  {
    if n > 0 {
      SpoiltIds(c, n - 1, i);
      TaskIdTellsIndex(c.scenario, i, c.tasks + (n - 1));
      hide TaskId;
    }
  }

  lemma {:induction false} SpoiltSize(c: Limits, n: nat)
    ensures |Spoilt(c, n)| == n
  {
    hide TaskId;
    if n > 0 {
      SpoiltIds(c, n - 1, c.tasks + (n - 1));
      SpoiltSize(c, n - 1);
    }
  }

  lemma ReachOn(c: Limits, s: State, e: Event)
    requires Reachable(c, s) && Enabled(s, e)
    ensures Reachable(c, Step(c, s, e))
  {
    var run :| Runs(c, Initial(c), run, s);
    assert [e][1..] == [];
    assert Runs(c, s, [e], Step(c, s, e));
    RunsCompose(c, Initial(c), run, s, [e], Step(c, s, e));
  }

  /** `i` tasks are published and counted, everything waits, and the map is `received`. */
  predicate Resting(c: Limits, s: State, i: nat, received: map<string, ResultMessage>) {
    && s.sched.ForHead? && !s.abort && s.next == i && s.scheduled == [] && s.ready == [] && s.received == received
    && |s.writers| > 0 && s.writers[0].WWait? && |s.publishers| > 0 && s.publishers[0].PWait?
    && |s.published| == s.publishedCount == i && (forall k :: k in s.published ==> k < i)
  }

  lemma {:induction false} Spoils(c: Limits, n: nat) returns (s: State)
    requires ValidLimits(c)
    ensures Reachable(c, s) && Resting(c, s, 0, Spoilt(c, n))
  {
    hide Reachable, TaskId;
    if n == 0 {
      var i := Initial(c);
      assert Reachable(c, i) by { StartsReachable(c); }
      ReachOn(c, i, Publisher(0, true));
      s := Step(c, i, Publisher(0, true));
    } else {
      var t := Spoils(c, n - 1);
      ReachOn(c, t, ResultArrives(LeftOver(c, n - 1)));
      s := Step(c, t, ResultArrives(LeftOver(c, n - 1)));
      SpoiltIds(c, n - 1, c.tasks + (n - 1));
    }
  }

  lemma StartsReachable(c: Limits)
    ensures Reachable(c, Initial(c))
  {
    assert Runs(c, Initial(c), [], Initial(c));
  }

  /** The scheduler reads four sizes that leave room, and admits. */
  lemma Admitted(c: Limits, s: State, i: nat, received: map<string, ResultMessage>) returns (t: State)
    requires ValidLimits(c) && Reachable(c, s) && Resting(c, s, i, received) && i < c.tasks && i <= |received|
    ensures Reachable(c, t) && t == s.(scheduled := [i], next := i + 1)
  {
    hide Reachable;
    ReachOn(c, s, Scheduler);
    ReachOn(c, s.(sched := WhileHead), Scheduler);
    ReachOn(c, s.(sched := PollScheduled), Scheduler);
    ReachOn(c, s.(sched := PollReady(0)), Scheduler);
    ReachOn(c, s.(sched := PollCompleted(0, 0)), Scheduler);
    ReachOn(c, s.(sched := PollPublished(0, 0, |received|)), Scheduler);
    ReachOn(c, s.(sched := Gate), Scheduler);
    ReachOn(c, s.(sched := Push), Scheduler);
    t := Step(c, s.(sched := Push), Scheduler);
  }

  lemma Written(c: Limits, s: State, i: nat) returns (t: State)
    requires Reachable(c, s) && s.scheduled == [i] && s.ready == [] && !s.abort && |s.writers| > 0 && s.writers[0].WWait?
    ensures Reachable(c, t) && t == s.(scheduled := [], ready := [i])
  {
    hide Reachable;
    ReachOn(c, s, Writer(0, true));
    var w := Step(c, s, Writer(0, true));
    ReachOn(c, w, Writer(0, true));
    t := Step(c, w, Writer(0, true));
    assert t.writers == s.writers;
  }

  lemma Published(c: Limits, s: State, i: nat) returns (t: State)
    requires Reachable(c, s) && s.ready == [i] && |s.publishers| > 0 && s.publishers[0].PWait?
    ensures Reachable(c, t) && t == s.(ready := [], published := s.published + [i], publishedCount := s.publishedCount + 1)
  {
    hide Reachable;
    ReachOn(c, s, Publisher(0, true));
    var p := Step(c, s, Publisher(0, true));
    ReachOn(c, p, Publisher(0, true));
    var q := Step(c, p, Publisher(0, true));
    ReachOn(c, q, Publisher(0, true));
    t := Step(c, q, Publisher(0, true));
    assert t.publishers == s.publishers;
  }

  /** As many tasks as there are stray results pass without an answer. */
  lemma {:induction false} PassUnanswered(c: Limits, i: nat, n: nat) returns (s: State)
    requires ValidLimits(c) && i <= n <= c.tasks
    ensures Reachable(c, s) && Resting(c, s, i, Spoilt(c, n))
  {
    hide Reachable, Spoilt;
    if i == 0 {
      s := Spoils(c, n);
    } else {
      SpoiltSize(c, n);
      s := PassUnanswered(c, i - 1, n);
      s := Admitted(c, s, i - 1, Spoilt(c, n));
      s := Written(c, s, i - 1);
      s := Published(c, s, i - 1);
    }
  }

  lemma {:induction false} AllAwaited(scenario: string, q: seq<nat>, received: map<string, ResultMessage>)
    requires forall i :: i in q ==> TaskId(scenario, i) !in received
    ensures Awaited(scenario, q, received) == |q|
  {
    if q != [] { AllAwaited(scenario, q[1..], received); }
  }

  /** With any limits, any number of tasks can be published and unanswered at once: results left over from
      an earlier run count as theirs. */
  lemma StraysDefeatTheLimit(c: Limits, n: nat)
    requires ValidLimits(c) && n <= c.tasks
    ensures exists s :: Reachable(c, s) && s.next == |s.published| == n && Completed(c, s) == 0 && |Strays(c, s)| == n
  {
    hide Reachable;
    var s := PassUnanswered(c, n, n);
    forall i | i in s.published ensures TaskId(c.scenario, i) !in s.received {
      SpoiltIds(c, n, i);
    }
    AllAwaited(c.scenario, s.published, s.received);
    SpoiltSize(c, n);
    forall id | id in s.received ensures id in Strays(c, s) { assert !IsOwn(c, s, id); }
    assert Strays(c, s) == s.received.Keys;
  }
}
