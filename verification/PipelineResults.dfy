/** The pipeline's main results, stated over every interleaving of its threads. */
module PipelineResults {
  import opened Prelude
  import opened PipelineModel
  import opened PipelineSafety

  lemma {:induction false} FreshWriters(ws: seq<WriterPc>, i: nat)
    requires forall k :: 0 <= k < |ws| ==> ws[k] == WWait
    ensures WithWriters(ws, i) == 0 && HeldByWriters(ws) == 0 && ActiveCount(ws) == |ws|
  {
    if ws != [] { FreshWriters(ws[1..], i); }
  }

  lemma {:induction false} IdlePublishers(ps: seq<PublisherPc>, i: nat)
    requires forall k :: 0 <= k < |ps| ==> AtPublisher(ps[k]).None? && !ps[k].PSent?
    ensures WithPublishers(ps, i) == 0 && HeldByPublishers(ps) == 0 && Uncounted(ps) == 0
  {
    if ps != [] { IdlePublishers(ps[1..], i); }
  }

  lemma InitialInv(c: Limits)
    requires ValidLimits(c)
    ensures Inv(c, Initial(c))
  {
    var s := Initial(c);
    forall i: nat ensures PlacesOf(s, i) == 0 {
      FreshWriters(s.writers, i);
      IdlePublishers(s.publishers, i);
    }
    FreshWriters(s.writers, 0);
    IdlePublishers(s.publishers, 0);
  }

  lemma {:induction false} RunKeepsInv(c: Limits, s: State, run: seq<Event>, s': State)
    requires ValidLimits(c) && Inv(c, s) && Runs(c, s, run, s')
    ensures Inv(c, s')
    decreases |run|
  {
    if run != [] {
      InvStep(c, s, run[0]);
      RunKeepsInv(c, Step(c, s, run[0]), run[1..], s');
    }
  }

  ghost predicate Reachable(c: Limits, s: State) {
    exists run :: Runs(c, Initial(c), run, s)
  }

  lemma ReachableInv(c: Limits, s: State)
    requires ValidLimits(c) && Reachable(c, s)
    ensures Inv(c, s)
  {
    var run :| Runs(c, Initial(c), run, s);
    InitialInv(c);
    RunKeepsInv(c, Initial(c), run, s);
  }

  /** The three backpressure bounds hold although the scheduler decides on stale sizes.  The third
      counts what the scheduler counts, every result in the map. */
  lemma BackpressureBounds(c: Limits, s: State)
    requires ValidLimits(c) && Reachable(c, s)
    ensures |s.scheduled| <= c.maxScheduled
    ensures Upstream(s) <= c.maxScheduled + c.maxReady + c.writers - 1
    ensures s.next - |s.received|
         <= c.maxScheduled + c.maxReady + c.maxInflight + c.writers + c.publishers - 2
  {
    ReachableInv(c, s);
  }

  /** A task is in exactly one place from its admission on, and nowhere before it. */
  lemma TasksAreConserved(c: Limits, s: State, i: nat)
    requires ValidLimits(c) && Reachable(c, s)
    ensures PlacesOf(s, i) == if i < s.next then 1 else 0
    ensures s.next <= c.tasks
  {
    ReachableInv(c, s);
  }

  lemma {:induction false} IdleWriters(ws: seq<WriterPc>, i: nat)
    requires forall k :: 0 <= k < |ws| ==> AtWriter(ws[k]).None?
    ensures WithWriters(ws, i) == 0 && HeldByWriters(ws) == 0
  {
    if ws != [] { IdleWriters(ws[1..], i); }
  }

  /** When every thread has joined and no error was recorded, every task was published exactly
      once, nothing else was, and both queues are empty. */
  lemma CompletionIsExact(c: Limits, s: State)
    requires ValidLimits(c) && Reachable(c, s) && s.sched.Joined? && !s.error
    ensures s.next == c.tasks && s.publishedCount == |s.published| == c.tasks
    ensures forall i: nat :: Occurs(s.published, i) == if i < c.tasks then 1 else 0
    ensures s.scheduled == [] && s.ready == []
  {
    ReachableInv(c, s);
    assert s.writers[0].WGone? && s.publishers[0].PGone?;
    assert WriterClean(s, s.writers[0]) && PublisherClean(s, s.publishers[0]);
    forall k | 0 <= k < |s.writers| ensures AtWriter(s.writers[k]).None? {
      assert WriterClean(s, s.writers[k]);
    }
    forall k | 0 <= k < |s.publishers| ensures AtPublisher(s.publishers[k]).None? && !s.publishers[k].PSent? {
      assert PublisherClean(s, s.publishers[k]);
    }
    forall i: nat ensures Occurs(s.published, i) == if i < c.tasks then 1 else 0 {
      IdleWriters(s.writers, i);
      IdlePublishers(s.publishers, i);
      assert PlacesOf(s, i) == One(i < s.next);
    }
    IdleWriters(s.writers, 0);
    IdlePublishers(s.publishers, 0);
  }

  /** The result map never forgets and never replaces: the first result under an identifier is the one
      reported. */
  lemma {:induction false} FirstResultIsKept(c: Limits, s: State, run: seq<Event>, t: State, id: string)
    requires Runs(c, s, run, t) && id in s.received
    ensures id in t.received && t.received[id] == s.received[id]
    decreases |run|
  {
    hide Enabled, Step;
    if run != [] {
      StepKeepsResults(c, s, run[0], id);
      FirstResultIsKept(c, Step(c, s, run[0]), run[1..], t, id);
    }
  }

  lemma StepKeepsResults(c: Limits, s: State, e: Event, id: string)
    requires Enabled(s, e) && id in s.received
    ensures id in Step(c, s, e).received && Step(c, s, e).received[id] == s.received[id]
  {
    match e
    case Scheduler => SchedulerMoves(c, s);
    case Writer(w, ok) => WriterStepMoves(s, w, ok);
    case Publisher(p, ok) => PublisherStepMoves(s, p, ok);
    case ResultArrives(_) =>
  }
}
