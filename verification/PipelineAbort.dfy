/** What an abort stops, and what it lets finish. */
module PipelineAbort {
  import opened Prelude
  import opened PipelineModel
  import opened PipelineSafety
  import opened PipelineResults

  /** How many more tasks the scheduler admits once the flag is set. */
  function StillToPush(pc: SchedulerPc): nat { if pc.Push? then 1 else 0 }

  lemma SchedulerAfterAbort(c: Limits, s: State)
    requires SchedulerEnabled(s) && s.abort
    ensures var s' := SchedulerStep(c, s);
            && s'.abort && s.scheduled <= s'.scheduled && s'.next + StillToPush(s'.sched) <= s.next + StillToPush(s.sched)
            && s'.writers == s.writers && s'.ready == s.ready && s'.published == s.published
  {
    match s.sched
    case Gate =>
    case Push =>
    case _ =>
  }

  /** After an abort no writer takes a task, and the scheduler admits no more than the one it has already
      decided on; so what is scheduled stays there. */
  lemma StepAfterAbort(c: Limits, s: State, e: Event)
    requires Enabled(s, e) && s.abort
    ensures var s' := Step(c, s, e);
            && s'.abort && s.scheduled <= s'.scheduled && s'.next + StillToPush(s'.sched) <= s.next + StillToPush(s.sched)
  {
    match e
    case Scheduler => SchedulerAfterAbort(c, s);
    case Writer(w, _) => { match s.writers[w] case WWait => case _ => }
    case Publisher(p, _) => { match s.publishers[p] case PWait => case _ => }
    case ResultArrives(_) =>
  }

  lemma {:induction false} AbortStopsTheIntake(c: Limits, s: State, run: seq<Event>, t: State)
    requires Runs(c, s, run, t) && s.abort
    ensures t.abort && s.scheduled <= t.scheduled && t.next <= s.next + (if s.sched.Push? then 1 else 0)
    ensures t.next + StillToPush(t.sched) <= s.next + StillToPush(s.sched)
    decreases |run|
  {
    hide Enabled, Step;
    if run != [] {
      StepAfterAbort(c, s, run[0]);
      AbortStopsTheIntake(c, Step(c, s, run[0]), run[1..], t);
    }
  }

  /** Publishers go on after an abort: one that waits takes the oldest ready task if there is one, and leaves
      only when there is none. */
  lemma AbortLetsPublishersFinish(c: Limits, s: State, p: nat, ok: bool)
    requires s.abort && p < |s.publishers| && s.publishers[p].PWait?
    ensures Enabled(s, Publisher(p, ok))
    ensures var s' := Step(c, s, Publisher(p, ok));
            if s.ready == [] then s'.publishers[p].PGone? && s'.ready == []
            else s'.publishers[p] == PSending(s.ready[0]) && s'.ready == s.ready[1..]
  {
  }

  /** A failed write or publish leads, by that thread's next step, to the abort. */
  lemma FailureAborts(c: Limits, s: State, e: Event)
    requires Enabled(s, e)
    requires (e.Writer? && s.writers[e.w].WWriting? && !e.writeOk) ||
             (e.Publisher? && (s.publishers[e.p].PSending? || s.publishers[e.p].PStarting?) && !e.callOk)
    ensures var s' := Step(c, s, e);
            && s'.error && s'.ready == s.ready && s'.published == s.published
            && (e.Writer? ==> Enabled(s', e) && Step(c, s', e).abort)
            && (e.Publisher? ==> Enabled(s', e) && Step(c, s', e).abort)
  {
  }
}
