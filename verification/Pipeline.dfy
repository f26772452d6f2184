/** The shared variables of the master's `main` and the critical sections its threads run on them. */
module Pipeline {
  import opened Prelude
  import opened TextFields
  import opened MessageCodec
  import opened PipelineModel
  import opened PipelineSafety

  class MasterPipeline {
    const limits: Limits
    var sched: SchedulerPc
    var index: nat
    var scheduledTasks: seq<nat>
    var readyPublishTasks: seq<nat>
    var writers: seq<WriterPc>
    var publishers: seq<PublisherPc>
    var scheduleComplete: bool
    var publishInputComplete: bool
    var abortPipeline: bool
    var pipelineError: bool
    var activeWriters: int
    var publishedCount: nat
    var published: seq<nat>
    var received: map<string, ResultMessage>

    ghost function View(): State
      reads this
    {
      State(sched, index, scheduledTasks, readyPublishTasks, writers, publishers, scheduleComplete,
            publishInputComplete, abortPipeline, pipelineError, activeWriters, publishedCount, published, received)
    }

    ghost predicate Valid()
      reads this
    {
      ValidLimits(limits) && Inv(limits, View())
    }

    constructor (c: Limits)
      ensures limits == c && View() == Initial(c)
    {
      limits := c;
      sched, index := ForHead, 0;
      scheduledTasks, readyPublishTasks := [], [];
      writers := seq(c.writers, _ => WWait);
      publishers := seq(c.publishers, _ => PStarting);
      scheduleComplete, publishInputComplete, abortPipeline, pipelineError := false, false, false, false;
      activeWriters, publishedCount := c.writers, 0;
      published, received := [], map[];
    }

    /** The loop that reads the four sizes: one lock, one read. */
    method PollSizes()
      requires Valid() && IsPolling(sched)
      modifies this`sched
      ensures Valid() && View() == SchedulerStep(limits, old(View()))
    {
      SchedulerKeeps();
      match sched
      case WhileHead => sched := if abortPipeline then Close else PollScheduled;
      case PollScheduled => sched := PollReady(|scheduledTasks|);
      case PollReady(n) => sched := PollCompleted(n, |readyPublishTasks|);
      case PollCompleted(n, r) => sched := PollPublished(n, r, |received|);
      case PollPublished(n, r, done) =>
        var inflight := 0;
        if publishedCount > done { inflight := publishedCount - done; }
        if n < limits.maxScheduled && r < limits.maxReady && inflight < limits.maxInflight {
          sched := Gate;
        } else {
          sched := WhileHead;
        }
    }

    /** Admission and the end of the schedule. */
    method AdmitOrClose()
      requires Valid() && !IsPolling(sched) && SchedulerEnabled(View())
      modifies this`sched, this`scheduledTasks, this`index, this`scheduleComplete
      ensures Valid() && View() == SchedulerStep(limits, old(View()))
    {
      SchedulerKeeps();
      match sched
      case ForHead =>
        if index < limits.tasks && !abortPipeline { sched := WhileHead; } else { sched := Close; }
      case Gate =>
        if abortPipeline { sched := Close; } else { sched := Push; }
      case Push =>
        scheduledTasks := scheduledTasks + [index];
        index := index + 1;
        sched := ForHead;
      case Close =>
        scheduleComplete := true;
        sched := JoinWriters;
      case JoinWriters => sched := JoinPublishers;
      case JoinPublishers => sched := Joined;
    }

    // ---- a writer thread, critical section by critical section ----

    /** Waits for work: takes the oldest task, or leaves on abort or at the end. */
    method WriterTakes(w: nat)
      requires Valid() && WriterEnabled(View(), w) && writers[w].WWait?
      modifies this`writers, this`scheduledTasks
      ensures Valid() && View() == WriterStep(old(View()), w, true)
    {
      WriterKeeps(w, true);
      hide Inv;
      if abortPipeline || scheduledTasks == [] {
        writers := writers[w := WLeaving(None)];
      } else {
        writers := writers[w := WWriting(scheduledTasks[0])];
        scheduledTasks := scheduledTasks[1..];
      }
    }

    /** Writes the image and hands the task on, or records the error. */
    method WriterWrites(w: nat, writeOk: bool)
      requires Valid() && WriterEnabled(View(), w) && writers[w].WWriting?
      modifies this`writers, this`readyPublishTasks, this`pipelineError
      ensures Valid() && View() == WriterStep(old(View()), w, writeOk)
    {
      WriterKeeps(w, writeOk);
      hide Inv;
      var task := writers[w].task;
      if writeOk {
        readyPublishTasks := readyPublishTasks + [task];
        writers := writers[w := WWait];
      } else {
        pipelineError := true;
        writers := writers[w := WFailed(task)];
      }
    }

    /** After an error. */
    method WriterAborts(w: nat)
      requires Valid() && WriterEnabled(View(), w) && writers[w].WFailed?
      modifies this`writers, this`abortPipeline
      ensures Valid() && View() == WriterStep(old(View()), w, true)
    {
      WriterKeeps(w, true);
      hide Inv;
      abortPipeline := true;
      writers := writers[w := WLeaving(Some(writers[w].task))];
    }

    /** `active_writers.fetch_sub(1)`. */
    method WriterLeaves(w: nat)
      requires Valid() && WriterEnabled(View(), w) && writers[w].WLeaving?
      modifies this`writers, this`activeWriters
      ensures Valid() && View() == WriterStep(old(View()), w, true)
    {
      WriterKeeps(w, true);
      hide Inv;
      var wasLast := activeWriters == 1;
      activeWriters := activeWriters - 1;
      writers := writers[w := if wasLast then WLast(writers[w].lost) else WGone(writers[w].lost)];
    }

    /** The last writer out closes the ready queue. */
    method LastWriterCloses(w: nat)
      requires Valid() && WriterEnabled(View(), w) && writers[w].WLast?
      modifies this`writers, this`publishInputComplete
      ensures Valid() && View() == WriterStep(old(View()), w, true)
    {
      WriterKeeps(w, true);
      hide Inv;
      publishInputComplete := true;
      writers := writers[w := WGone(writers[w].lost)];
    }

    // ---- a publisher thread, critical section by critical section ----

    /** Starts the publisher's own bus. */
    method PublisherStarts(p: nat, callOk: bool)
      requires Valid() && PublisherEnabled(View(), p) && publishers[p].PStarting?
      modifies this`publishers, this`pipelineError
      ensures Valid() && View() == PublisherStep(old(View()), p, callOk)
    {
      PublisherKeeps(p, callOk);
      hide Inv;
      if callOk {
        publishers := publishers[p := PWait];
      } else {
        pipelineError := true;
        publishers := publishers[p := PStartFailed];
      }
    }

    /** After a failed start. */
    method PublisherGivesUp(p: nat)
      requires Valid() && PublisherEnabled(View(), p) && publishers[p].PStartFailed?
      modifies this`publishers, this`abortPipeline
      ensures Valid() && View() == PublisherStep(old(View()), p, true)
    {
      PublisherKeeps(p, true);
      hide Inv;
      abortPipeline := true;
      publishers := publishers[p := PGone(None)];
    }

    /** Waits for a written task: takes the oldest, or leaves when there is none. */
    method PublisherTakes(p: nat)
      requires Valid() && PublisherEnabled(View(), p) && publishers[p].PWait?
      modifies this`publishers, this`readyPublishTasks
      ensures Valid() && View() == PublisherStep(old(View()), p, true)
    {
      PublisherKeeps(p, true);
      hide Inv;
      if readyPublishTasks == [] {
        publishers := publishers[p := PGone(None)];
      } else {
        publishers := publishers[p := PSending(readyPublishTasks[0])];
        readyPublishTasks := readyPublishTasks[1..];
      }
    }

    /** Publishes the task message. */
    method PublisherPublishes(p: nat, callOk: bool)
      requires Valid() && PublisherEnabled(View(), p) && publishers[p].PSending?
      modifies this`publishers, this`published, this`pipelineError
      ensures Valid() && View() == PublisherStep(old(View()), p, callOk)
    {
      PublisherKeeps(p, callOk);
      hide Inv;
      var task := publishers[p].task;
      if callOk {
        published := published + [task];
        publishers := publishers[p := PSent(task)];
      } else {
        pipelineError := true;
        publishers := publishers[p := PFailed(task)];
      }
    }

    /** `published_count.fetch_add(1)`. */
    method PublisherCounts(p: nat)
      requires Valid() && PublisherEnabled(View(), p) && publishers[p].PSent?
      modifies this`publishers, this`publishedCount
      ensures Valid() && View() == PublisherStep(old(View()), p, true)
    {
      PublisherKeeps(p, true);
      hide Inv;
      publishedCount := publishedCount + 1;
      publishers := publishers[p := PWait];
    }

    /** After a failed publish. */
    method PublisherAborts(p: nat)
      requires Valid() && PublisherEnabled(View(), p) && publishers[p].PFailed?
      modifies this`publishers, this`abortPipeline
      ensures Valid() && View() == PublisherStep(old(View()), p, true)
    {
      PublisherKeeps(p, true);
      hide Inv;
      abortPipeline := true;
      publishers := publishers[p := PGone(Some(publishers[p].task))];
    }

    /** The result handler: a payload that does not parse is rejected; the first result under an
        identifier is kept, later ones are acknowledged and ignored. */
    method OnResult(payload: string) returns (acknowledged: bool)
      requires Valid()
      modifies this`received
      ensures acknowledged <==> ParseResultMessage(payload).Ok?
      ensures Valid() && View() == if acknowledged
                                   then Step(limits, old(View()), ResultArrives(ParseResultMessage(payload).value))
                                   else old(View())
    {
      hide Inv, ParseResultMessage;
      var parsed := ParseResultMessage(payload);
      if parsed.Err? {
        return false;
      }
      InvStep(limits, View(), ResultArrives(parsed.value));
      if parsed.value.taskId !in received {
        received := received[parsed.value.taskId := parsed.value];
      }
      acknowledged := true;
    }

    lemma WriterKeeps(w: nat, writeOk: bool)
      requires Valid() && WriterEnabled(View(), w)
      ensures Inv(limits, WriterStep(View(), w, writeOk))
    {
      InvStep(limits, View(), Writer(w, writeOk));
    }

    lemma PublisherKeeps(p: nat, callOk: bool)
      requires Valid() && PublisherEnabled(View(), p)
      ensures Inv(limits, PublisherStep(View(), p, callOk))
    {
      InvStep(limits, View(), Publisher(p, callOk));
    }

    lemma SchedulerKeeps()
      requires Valid() && SchedulerEnabled(View())
      ensures Inv(limits, SchedulerStep(limits, View()))
    {
      InvStep(limits, View(), Scheduler);
    }
  }
}
