/** In which order tasks go through the pipeline: both queues are first in, first out over every
    interleaving, and a pipeline with one writer and one publisher publishes in the order scheduled. */
module PipelineOrder {
  import opened Prelude
  import opened PipelineModel
  import opened PipelineSafety
  import opened PipelineResults

  /** The tasks from `a` on, below `b`. */
  function Range(a: nat, b: nat): (r: seq<nat>)
    requires a <= b
    ensures |r| == b - a && forall i :: 0 <= i < b - a ==> r[i] == a + i
  {
    seq(b - a, i requires 0 <= i < b - a => a + i)
  }

  // ---- what one step takes from or hands to a queue, read off the threads ----

  function WriterTook(c: Limits, s: State, e: Event): seq<nat>
    requires Enabled(s, e)
  {
    if !e.Writer? || e.w >= |Step(c, s, e).writers| then []
    else if s.writers[e.w].WWait? && Step(c, s, e).writers[e.w].WWriting? then [Step(c, s, e).writers[e.w].task] else []
  }

  function WriterWrote(c: Limits, s: State, e: Event): seq<nat>
    requires Enabled(s, e)
  {
    if e.Writer? && e.writeOk && s.writers[e.w].WWriting? then [s.writers[e.w].task] else []
  }

  function PublisherTook(c: Limits, s: State, e: Event): seq<nat>
    requires Enabled(s, e)
  {
    if !e.Publisher? || e.p >= |Step(c, s, e).publishers| then []
    else if s.publishers[e.p].PWait? && Step(c, s, e).publishers[e.p].PSending? then [Step(c, s, e).publishers[e.p].task] else []
  }

  // ---- the same over a run ----

  function TakenByWriters(c: Limits, s: State, run: seq<Event>, t: State): seq<nat>
    requires Runs(c, s, run, t)
    decreases |run|
  {
    if run == [] then [] else WriterTook(c, s, run[0]) + TakenByWriters(c, Step(c, s, run[0]), run[1..], t)
  }

  function Written(c: Limits, s: State, run: seq<Event>, t: State): seq<nat>
    requires Runs(c, s, run, t)
    decreases |run|
  {
    if run == [] then [] else WriterWrote(c, s, run[0]) + Written(c, Step(c, s, run[0]), run[1..], t)
  }

  function TakenByPublishers(c: Limits, s: State, run: seq<Event>, t: State): seq<nat>
    requires Runs(c, s, run, t)
    decreases |run|
  {
    if run == [] then [] else PublisherTook(c, s, run[0]) + TakenByPublishers(c, Step(c, s, run[0]), run[1..], t)
  }

  // ---- both queues are first in, first out ----

  lemma StepIsFifo(c: Limits, s: State, e: Event)
    requires Enabled(s, e)
    ensures s.next <= Step(c, s, e).next
    ensures s.scheduled + Range(s.next, Step(c, s, e).next) == WriterTook(c, s, e) + Step(c, s, e).scheduled
    ensures s.ready + WriterWrote(c, s, e) == PublisherTook(c, s, e) + Step(c, s, e).ready
  {
    match e
    case Scheduler => SchedulerIsFifo(c, s);
    case Writer(w, ok) => WriterIsFifo(c, s, w, ok);
    case Publisher(p, ok) => PublisherIsFifo(c, s, p, ok);
    case ResultArrives(_) =>
  }

  lemma SchedulerIsFifo(c: Limits, s: State)
    requires SchedulerEnabled(s)
    ensures s.next <= SchedulerStep(c, s).next && SchedulerStep(c, s).ready == s.ready
    ensures s.scheduled + Range(s.next, SchedulerStep(c, s).next) == SchedulerStep(c, s).scheduled
  {
    match s.sched
    case Push =>
    case _ =>
  }

  lemma WriterIsFifo(c: Limits, s: State, w: nat, ok: bool)
    requires WriterEnabled(s, w)
    ensures Step(c, s, Writer(w, ok)).next == s.next
    ensures s.scheduled == WriterTook(c, s, Writer(w, ok)) + Step(c, s, Writer(w, ok)).scheduled
    ensures s.ready + WriterWrote(c, s, Writer(w, ok)) == Step(c, s, Writer(w, ok)).ready
  {
    match s.writers[w]
    case WWait =>
    case WWriting(_) =>
    case _ =>
  }

  lemma PublisherIsFifo(c: Limits, s: State, p: nat, ok: bool)
    requires PublisherEnabled(s, p)
    ensures Step(c, s, Publisher(p, ok)).next == s.next && Step(c, s, Publisher(p, ok)).scheduled == s.scheduled
    ensures s.ready == PublisherTook(c, s, Publisher(p, ok)) + Step(c, s, Publisher(p, ok)).ready
  {
    match s.publishers[p]
    case PWait =>
    case PSending(_) =>
    case PSent(_) =>
    case _ =>
  }

  lemma {:induction false} RunIsFifo(c: Limits, s: State, run: seq<Event>, t: State)
    requires Runs(c, s, run, t)
    ensures s.next <= t.next
    ensures s.scheduled + Range(s.next, t.next) == TakenByWriters(c, s, run, t) + t.scheduled
    ensures s.ready + Written(c, s, run, t) == TakenByPublishers(c, s, run, t) + t.ready
    decreases |run|
  {
    hide Enabled, Step, WriterTook, WriterWrote, PublisherTook;
    if run != [] {
      var m := Step(c, s, run[0]);
      StepIsFifo(c, s, run[0]);
      RunIsFifo(c, m, run[1..], t);
      assert Range(s.next, t.next) == Range(s.next, m.next) + Range(m.next, t.next);
      Chained(s.scheduled, Range(s.next, m.next), Range(m.next, t.next), WriterTook(c, s, run[0]), m.scheduled,
              TakenByWriters(c, m, run[1..], t), t.scheduled);
      Chained(s.ready, WriterWrote(c, s, run[0]), Written(c, m, run[1..], t), PublisherTook(c, s, run[0]), m.ready,
              TakenByPublishers(c, m, run[1..], t), t.ready);
    }
  }

  lemma Chained(a: seq<nat>, in1: seq<nat>, in2: seq<nat>, out1: seq<nat>, b: seq<nat>, out2: seq<nat>, d: seq<nat>)
    requires a + in1 == out1 + b && b + in2 == out2 + d
    ensures a + (in1 + in2) == (out1 + out2) + d
  {
    assert a + (in1 + in2) == (a + in1) + in2;
    assert (out1 + b) + in2 == out1 + (b + in2);
    assert out1 + (out2 + d) == (out1 + out2) + d;
  }

  /** Whatever the interleaving, the writers take the tasks 0, 1, 2, ... in this order, and the publishers
      take them in the order in which they were written. */
  lemma QueuesAreFifo(c: Limits, run: seq<Event>, t: State)
    requires Runs(c, Initial(c), run, t)
    ensures TakenByWriters(c, Initial(c), run, t) + t.scheduled == Range(0, t.next)
    ensures TakenByPublishers(c, Initial(c), run, t) + t.ready == Written(c, Initial(c), run, t)
  {
    hide Runs, Enabled, Step, TakenByWriters, TakenByPublishers, Written;
    RunIsFifo(c, Initial(c), run, t);
    assert Initial(c).scheduled + Range(0, t.next) == Range(0, t.next);
    assert Initial(c).ready + Written(c, Initial(c), run, t) == Written(c, Initial(c), run, t);
  }

  // ---- one writer and one publisher ----

  function Held(o: Option<nat>): seq<nat> { if o.Some? then [o.value] else [] }

  /** Everything admitted, from the oldest on. */
  function Line(s: State): seq<nat>
    requires |s.writers| == 1 && |s.publishers| == 1
  {
    s.published + Held(AtPublisher(s.publishers[0])) + s.ready + Held(AtWriter(s.writers[0])) + s.scheduled
  }

  /** There is one thread of each kind, and the line holds the tasks in the order of their numbers. */
  predicate InLine(s: State) {
    |s.writers| == 1 && |s.publishers| == 1 && Line(s) == Range(0, s.next)
  }

  lemma LineStep(c: Limits, s: State, e: Event)
    requires Enabled(s, e) && InLine(s)
    ensures InLine(Step(c, s, e))
  {
    match e
    case Scheduler => SchedulerKeepsLine(c, s);
    case Writer(w, ok) => WriterKeepsLine(s, ok);
    case Publisher(p, ok) => PublisherKeepsLine(s, ok);
    case ResultArrives(_) =>
  }

  lemma SchedulerKeepsLine(c: Limits, s: State)
    requires SchedulerEnabled(s) && InLine(s)
    ensures InLine(SchedulerStep(c, s))
  {
    var before := s.published + Held(AtPublisher(s.publishers[0])) + s.ready + Held(AtWriter(s.writers[0]));
    match s.sched
    case Push =>
      assert before + (s.scheduled + [s.next]) == (before + s.scheduled) + [s.next];
      assert Range(0, s.next + 1) == Range(0, s.next) + [s.next];
    case _ =>
  }

  lemma WriterKeepsLine(s: State, ok: bool)
    requires WriterEnabled(s, 0) && InLine(s)
    ensures InLine(WriterStep(s, 0, ok))
  {
    var done := s.published + Held(AtPublisher(s.publishers[0]));
    match s.writers[0]
    case WWait =>
      if !s.abort && s.scheduled != [] { Regroup(done + s.ready, [], s.scheduled); }
    case WWriting(i) =>
      assert (done + s.ready) + [i] + s.scheduled == done + (s.ready + [i]) + [] + s.scheduled;
    case _ =>
  }

  /** An empty hand that takes the first of a queue does not change the line. */
  lemma Regroup(before: seq<nat>, hand: seq<nat>, q: seq<nat>)
    requires q != [] && hand == []
    ensures before + [q[0]] + q[1..] == before + hand + q
  {
    assert [q[0]] + q[1..] == q;
  }

  lemma PublisherKeepsLine(s: State, ok: bool)
    requires PublisherEnabled(s, 0) && InLine(s)
    ensures InLine(PublisherStep(s, 0, ok))
  {
    match s.publishers[0]
    case PWait =>
      if s.ready != [] { Regroup(s.published, [], s.ready); }
    case PSending(i) =>
      assert s.published + [i] + s.ready == (s.published + [i]) + [] + s.ready;
    case PSent(_) =>
    case _ =>
  }

  lemma {:induction false} RunKeepsLine(c: Limits, s: State, run: seq<Event>, t: State)
    requires Runs(c, s, run, t) && InLine(s)
    ensures InLine(t)
    decreases |run|
  {
    hide Enabled, Step, InLine;
    if run != [] {
      LineStep(c, s, run[0]);
      RunKeepsLine(c, Step(c, s, run[0]), run[1..], t);
    }
  }

  /** One writer and one publisher: what is published, held, ready, being written and scheduled are in
      this order the tasks 0, 1, 2, ...; so tasks are published in the order scheduled, with none left out. */
  lemma SingleThreadsKeepOrder(c: Limits, s: State)
    requires c.writers == 1 && c.publishers == 1 && Reachable(c, s)
    ensures |s.writers| == 1 && |s.publishers| == 1 && Line(s) == Range(0, s.next)
    ensures |s.published| <= s.next && s.published == Range(0, |s.published|)
  {
    var run :| Runs(c, Initial(c), run, s);
    assert InLine(Initial(c));
    RunKeepsLine(c, Initial(c), run, s);
    assert |Line(s)| == s.next;
    forall i | 0 <= i < |s.published| ensures s.published[i] == i {
      assert s.published[i] == Line(s)[i];
    }
  }
}
