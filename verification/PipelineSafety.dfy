/** What every interleaving of the pipeline keeps: conservation, the true bounds and the shutdown order. */
module PipelineSafety {
  import opened Prelude
  import opened MessageCodec
  import opened PipelineModel

  // ---- where a task is ----

  /** The task a writer is working on, or took down with it. */
  function AtWriter(pc: WriterPc): Option<nat> {
    match pc
    case WWait => None
    case WWriting(i) => Some(i)
    case WFailed(i) => Some(i)
    case WLeaving(l) => l
    case WLast(l) => l
    case WGone(l) => l
  }

  /** The task a publisher has not handed to the broker. */
  function AtPublisher(pc: PublisherPc): Option<nat> {
    match pc
    case PSending(i) => Some(i)
    case PFailed(i) => Some(i)
    case PGone(l) => l
    case _ => None
  }

  function One(b: bool): nat { if b then 1 else 0 }

  /** How often task `i` occurs in a queue, in the writers' hands and in the publishers' hands. */
  function Occurs(q: seq<nat>, i: nat): nat {
    if q == [] then 0 else One(q[0] == i) + Occurs(q[1..], i)
  }

  function WithWriters(ws: seq<WriterPc>, i: nat): nat {
    if ws == [] then 0 else One(AtWriter(ws[0]) == Some(i)) + WithWriters(ws[1..], i)
  }

  function WithPublishers(ps: seq<PublisherPc>, i: nat): nat {
    if ps == [] then 0 else One(AtPublisher(ps[0]) == Some(i)) + WithPublishers(ps[1..], i)
  }

  /** How many tasks the writers hold, the publishers hold, and the broker has uncounted. */
  function HeldByWriters(ws: seq<WriterPc>): nat {
    if ws == [] then 0 else One(AtWriter(ws[0]).Some?) + HeldByWriters(ws[1..])
  }

  function HeldByPublishers(ps: seq<PublisherPc>): nat {
    if ps == [] then 0 else One(AtPublisher(ps[0]).Some?) + HeldByPublishers(ps[1..])
  }

  function Uncounted(ps: seq<PublisherPc>): nat {
    if ps == [] then 0 else One(ps[0].PSent?) + Uncounted(ps[1..])
  }

  predicate StillActive(pc: WriterPc) { !pc.WLast? && !pc.WGone? }

  function ActiveCount(ws: seq<WriterPc>): nat {
    if ws == [] then 0 else One(StillActive(ws[0])) + ActiveCount(ws[1..])
  }

  /** In how many places task `i` is. */
  function PlacesOf(s: State, i: nat): nat {
    Occurs(s.scheduled, i) + WithWriters(s.writers, i) + Occurs(s.ready, i) +
    WithPublishers(s.publishers, i) + Occurs(s.published, i)
  }

  lemma {:induction false} OccursAppend(q: seq<nat>, x: nat, i: nat)
    ensures Occurs(q + [x], i) == Occurs(q, i) + One(x == i)
  {
    if q == [] {
      assert (q + [x])[1..] == [];
    } else {
      assert (q + [x])[1..] == q[1..] + [x];
      OccursAppend(q[1..], x, i);
    }
  }

  lemma {:induction false} OccursIn(q: seq<nat>, i: nat)
    ensures Occurs(q, i) > 0 <==> i in q
  {
    if q != [] { OccursIn(q[1..], i); }
  }

  lemma {:induction false} WriterMoves(ws: seq<WriterPc>, w: nat, pc: WriterPc, i: nat)
    requires w < |ws|
    ensures WithWriters(ws[w := pc], i) + One(AtWriter(ws[w]) == Some(i)) == WithWriters(ws, i) + One(AtWriter(pc) == Some(i))
    ensures HeldByWriters(ws[w := pc]) + One(AtWriter(ws[w]).Some?) == HeldByWriters(ws) + One(AtWriter(pc).Some?)
    ensures ActiveCount(ws[w := pc]) + One(StillActive(ws[w])) == ActiveCount(ws) + One(StillActive(pc))
  {
    if w == 0 {
      assert ws[w := pc][1..] == ws[1..];
    } else {
      assert ws[w := pc][1..] == ws[1..][w - 1 := pc];
      WriterMoves(ws[1..], w - 1, pc, i);
    }
  }

  lemma {:induction false} PublisherMoves(ps: seq<PublisherPc>, p: nat, pc: PublisherPc, i: nat)
    requires p < |ps|
    ensures WithPublishers(ps[p := pc], i) + One(AtPublisher(ps[p]) == Some(i))
         == WithPublishers(ps, i) + One(AtPublisher(pc) == Some(i))
    ensures HeldByPublishers(ps[p := pc]) + One(AtPublisher(ps[p]).Some?)
         == HeldByPublishers(ps) + One(AtPublisher(pc).Some?)
    ensures Uncounted(ps[p := pc]) + One(ps[p].PSent?) == Uncounted(ps) + One(pc.PSent?)
  {
    if p == 0 {
      assert ps[p := pc][1..] == ps[1..];
    } else {
      assert ps[p := pc][1..] == ps[1..][p - 1 := pc];
      PublisherMoves(ps[1..], p - 1, pc, i);
    }
  }

  lemma {:induction false} WritersHoldOneEach(ws: seq<WriterPc>)
    ensures HeldByWriters(ws) <= |ws|
  {
    if ws != [] { WritersHoldOneEach(ws[1..]); }
  }

  lemma {:induction false} PublishersHoldOneEach(ps: seq<PublisherPc>)
    ensures HeldByPublishers(ps) + Uncounted(ps) <= |ps|
  {
    if ps != [] { PublishersHoldOneEach(ps[1..]); }
  }

  // ---- conservation ----

  ghost predicate Shape(c: Limits, s: State) {
    && |s.writers| == c.writers && |s.publishers| == c.publishers
    && s.next <= c.tasks
    && (IsPolling(s.sched) || s.sched.Gate? || s.sched.Push? ==> s.next < c.tasks)
  }

  /** Every admitted task is in exactly one place, and no other task is anywhere. */
  ghost predicate OnePlace(s: State) {
    forall i: nat :: PlacesOf(s, i) == One(i < s.next)
  }

  /** The same books kept in numbers. */
  ghost predicate Balanced(s: State) {
    && s.next == |s.scheduled| + HeldByWriters(s.writers) + |s.ready| + HeldByPublishers(s.publishers) + |s.published|
    && |s.published| == s.publishedCount + Uncounted(s.publishers)
  }

  // ---- what one step of each thread does to the books ----

  /** The scheduler admits the next task, or touches no task. */
  ghost predicate SchedulerMove(s: State, s': State) {
    && s'.writers == s.writers && s'.publishers == s.publishers && s'.ready == s.ready
    && s'.published == s.published && s'.publishedCount == s.publishedCount && s'.received == s.received
    && if s.sched.Push? then s'.scheduled == s.scheduled + [s.next] && s'.next == s.next + 1
       else s'.scheduled == s.scheduled && s'.next == s.next
  }

  /** A writer keeps what it holds, takes the oldest scheduled task, or hands its task on. */
  ghost predicate WriterMove(s: State, s': State, w: nat)
    requires w < |s.writers| == |s'.writers|
  {
    var a, b := AtWriter(s.writers[w]), AtWriter(s'.writers[w]);
    && s'.writers == s.writers[w := s'.writers[w]] && s'.publishers == s.publishers
    && s'.published == s.published && s'.publishedCount == s.publishedCount
    && s'.next == s.next && s'.sched == s.sched && s'.received == s.received
    && (|| (a == b && s'.scheduled == s.scheduled && s'.ready == s.ready)
        || (a.None? && s.scheduled != [] && b == Some(s.scheduled[0]) && s'.scheduled == s.scheduled[1..] && s'.ready == s.ready)
        || (a.Some? && b.None? && s'.scheduled == s.scheduled && s'.ready == s.ready + [a.value]))
  }

  /** A publisher keeps what it holds, takes the oldest ready task, publishes its task, or counts it. */
  ghost predicate PublisherMove(s: State, s': State, p: nat)
    requires p < |s.publishers| == |s'.publishers|
  {
    var x, y := s.publishers[p], s'.publishers[p];
    var a, b := AtPublisher(x), AtPublisher(y);
    && s'.publishers == s.publishers[p := y] && s'.writers == s.writers && s'.scheduled == s.scheduled
    && s'.next == s.next && s'.sched == s.sched && s'.received == s.received
    && (|| (a == b && !x.PSent? && !y.PSent? && s'.ready == s.ready && s'.published == s.published &&
            s'.publishedCount == s.publishedCount)
        || (a.None? && !x.PSent? && !y.PSent? && s.ready != [] && b == Some(s.ready[0]) && s'.ready == s.ready[1..] &&
            s'.published == s.published && s'.publishedCount == s.publishedCount)
        || (a.Some? && !x.PSent? && y.PSent? && s'.ready == s.ready && s'.published == s.published + [a.value] &&
            s'.publishedCount == s.publishedCount)
        || (x.PSent? && b.None? && !y.PSent? && s'.ready == s.ready && s'.published == s.published &&
            s'.publishedCount == s.publishedCount + 1))
  }

  lemma SchedulerMoves(c: Limits, s: State)
    ensures SchedulerMove(s, SchedulerStep(c, s))
  {
    match s.sched
    case Push =>
    case _ =>
  }

  lemma WriterStepMoves(s: State, w: nat, ok: bool)
    requires WriterEnabled(s, w)
    ensures |WriterStep(s, w, ok).writers| == |s.writers| && WriterMove(s, WriterStep(s, w, ok), w)
  {
    match s.writers[w]
    case WWait =>
    case WWriting(_) =>
    case WFailed(_) =>
    case WLeaving(_) =>
    case WLast(_) =>
  }

  lemma PublisherTakesOne(s: State, p: nat, ok: bool)
    requires PublisherEnabled(s, p) && s.publishers[p].PWait?
    ensures |PublisherStep(s, p, ok).publishers| == |s.publishers| && PublisherMove(s, PublisherStep(s, p, ok), p)
  {
  }

  lemma PublisherCalls(s: State, p: nat, ok: bool)
    requires PublisherEnabled(s, p) && (s.publishers[p].PStarting? || s.publishers[p].PSending?)
    ensures |PublisherStep(s, p, ok).publishers| == |s.publishers| && PublisherMove(s, PublisherStep(s, p, ok), p)
  {
  }

  lemma PublisherFollowsUp(s: State, p: nat, ok: bool)
    requires PublisherEnabled(s, p) && (s.publishers[p].PStartFailed? || s.publishers[p].PSent? || s.publishers[p].PFailed?)
    ensures |PublisherStep(s, p, ok).publishers| == |s.publishers| && PublisherMove(s, PublisherStep(s, p, ok), p)
  {
  }

  lemma PublisherStepMoves(s: State, p: nat, ok: bool)
    requires PublisherEnabled(s, p)
    ensures |PublisherStep(s, p, ok).publishers| == |s.publishers| && PublisherMove(s, PublisherStep(s, p, ok), p)
  {
    hide PublisherStep, PublisherMove;
    match s.publishers[p]
    case PStarting => PublisherCalls(s, p, ok);
    case PStartFailed => PublisherFollowsUp(s, p, ok);
    case PWait => PublisherTakesOne(s, p, ok);
    case PSending(_) => PublisherCalls(s, p, ok);
    case PSent(_) => PublisherFollowsUp(s, p, ok);
    case PFailed(_) => PublisherFollowsUp(s, p, ok);
  }

  lemma SchedulerKeepsPlaces(s: State, s': State, i: nat)
    requires SchedulerMove(s, s')
    ensures PlacesOf(s', i) == PlacesOf(s, i) + One(s.sched.Push? && i == s.next)
  {
    if s.sched.Push? { OccursAppend(s.scheduled, s.next, i); }
  }

  lemma WriterKeepsPlaces(s: State, s': State, w: nat, i: nat)
    requires w < |s.writers| == |s'.writers| && WriterMove(s, s', w)
    ensures PlacesOf(s', i) == PlacesOf(s, i)
  {
    WriterMoves(s.writers, w, s'.writers[w], i);
    var a := AtWriter(s.writers[w]);
    if a.Some? { OccursAppend(s.ready, a.value, i); }
  }

  lemma PublisherKeepsPlaces(s: State, s': State, p: nat, i: nat)
    requires p < |s.publishers| == |s'.publishers| && PublisherMove(s, s', p)
    ensures PlacesOf(s', i) == PlacesOf(s, i)
  {
    PublisherMoves(s.publishers, p, s'.publishers[p], i);
    var a := AtPublisher(s.publishers[p]);
    if a.Some? { OccursAppend(s.published, a.value, i); }
  }

  lemma SchedulerBalances(s: State, s': State)
    requires Balanced(s) && SchedulerMove(s, s')
    ensures Balanced(s')
  {
  }

  lemma WriterBalances(s: State, s': State, w: nat)
    requires Balanced(s) && w < |s.writers| == |s'.writers| && WriterMove(s, s', w)
    ensures Balanced(s')
  {
    WriterMoves(s.writers, w, s'.writers[w], 0);
  }

  lemma PublisherBalances(s: State, s': State, p: nat)
    requires Balanced(s) && p < |s.publishers| == |s'.publishers| && PublisherMove(s, s', p)
    ensures Balanced(s')
  {
    PublisherMoves(s.publishers, p, s'.publishers[p], 0);
  }

  ghost predicate Conserved(c: Limits, s: State) {
    Shape(c, s) && OnePlace(s) && Balanced(s)
  }

  lemma SchedulerConserves(c: Limits, s: State)
    requires Conserved(c, s) && SchedulerEnabled(s)
    ensures Conserved(c, SchedulerStep(c, s))
  {
    var s' := SchedulerStep(c, s);
    SchedulerMoves(c, s);
    SchedulerKeepsShape(c, s);
    hide SchedulerStep, PlacesOf, Shape, Balanced;
    SchedulerBalances(s, s');
    forall i: nat ensures PlacesOf(s', i) == One(i < s'.next) {
      SchedulerKeepsPlaces(s, s', i);
    }
  }

  lemma SchedulerKeepsShape(c: Limits, s: State)
    requires Shape(c, s)
    ensures Shape(c, SchedulerStep(c, s))
  {
  }

  /** What neither a writer nor a publisher does. */
  predicate OnlyMoves(s: State, s': State) {
    && s'.next == s.next && s'.sched == s.sched && s'.received == s.received && s.published <= s'.published
    && |s'.writers| == |s.writers| && |s'.publishers| == |s.publishers|
  }

  /** A thread that takes no new task and withdraws no publication keeps the books. */
  lemma KeptPlacesConserve(c: Limits, s: State, s': State)
    requires Conserved(c, s) && Balanced(s')
    requires forall i: nat :: PlacesOf(s', i) == PlacesOf(s, i)
    requires OnlyMoves(s, s')
    ensures Conserved(c, s')
  {
  }

  lemma WriterConserves(c: Limits, s: State, w: nat, ok: bool)
    requires Conserved(c, s) && WriterEnabled(s, w)
    ensures Conserved(c, WriterStep(s, w, ok))
  {
    var s' := WriterStep(s, w, ok);
    WriterStepMoves(s, w, ok);
    hide WriterStep, PlacesOf, Shape, Balanced, OnePlace;
    WriterBalances(s, s', w);
    forall i: nat ensures PlacesOf(s', i) == PlacesOf(s, i) { WriterKeepsPlaces(s, s', w, i); }
    KeptPlacesConserve(c, s, s');
  }

  lemma PublisherConserves(c: Limits, s: State, p: nat, ok: bool)
    requires Conserved(c, s) && PublisherEnabled(s, p)
    ensures Conserved(c, PublisherStep(s, p, ok))
  {
    var s' := PublisherStep(s, p, ok);
    PublisherStepMoves(s, p, ok);
    hide PublisherStep, PlacesOf, Shape, Balanced, OnePlace;
    PublisherBalances(s, s', p);
    forall i: nat ensures PlacesOf(s', i) == PlacesOf(s, i) { PublisherKeepsPlaces(s, s', p, i); }
    KeptPlacesConserve(c, s, s');
  }

  // ---- bounds ----

  /** Tasks admitted and not yet taken by a publisher. */
  function Upstream(s: State): nat {
    |s.scheduled| + HeldByWriters(s.writers) + |s.ready|
  }

  ghost predicate Admits(c: Limits, s: State) {
    && |s.scheduled| <= c.maxScheduled - 1
    && Upstream(s) <= c.maxScheduled + c.maxReady + c.writers - 2
    && s.next - |s.received| <= c.maxScheduled + c.maxReady + c.maxInflight + c.writers + c.publishers - 3
  }

  /** What the values the scheduler has read so far still say about the present. */
  ghost predicate ReadsStillBound(c: Limits, s: State) {
    match s.sched
    case PollReady(n) => |s.scheduled| <= n
    case PollCompleted(n, r) => |s.scheduled| <= n && Upstream(s) <= n + c.writers + r
    case PollPublished(n, r, d) => |s.scheduled| <= n && Upstream(s) <= n + c.writers + r && d <= |s.received|
    case Gate => Admits(c, s)
    case Push => Admits(c, s)
    case _ => true
  }

  ghost predicate Bounded(c: Limits, s: State) {
    && |s.scheduled| <= c.maxScheduled
    && Upstream(s) <= c.maxScheduled + c.maxReady + c.writers - 1
    && s.next - |s.received| <= c.maxScheduled + c.maxReady + c.maxInflight + c.writers + c.publishers - 2
  }

  ghost predicate BoundInv(c: Limits, s: State) { ReadsStillBound(c, s) && Bounded(c, s) }

  lemma SchedulerBounded(c: Limits, s: State)
    requires ValidLimits(c) && BoundInv(c, s)
    ensures Bounded(c, SchedulerStep(c, s))
  {
    hide SchedulerStep, HeldByWriters;
    SchedulerMoves(c, s);
  }

  /** The decision the scheduler takes on four stale values is sound for the present state. */
  lemma AdmissionIsSound(c: Limits, s: State)
    requires ValidLimits(c) && Shape(c, s) && Balanced(s) && ReadsStillBound(c, s) && s.sched.PollPublished?
    requires HasRoom(c, s.sched.scheduled, s.sched.ready, s.sched.completed, s.publishedCount)
    ensures Admits(c, s)
  {
    PublishersHoldOneEach(s.publishers);
  }

  lemma SchedulerReads(c: Limits, s: State)
    requires ValidLimits(c) && Shape(c, s) && Balanced(s) && ReadsStillBound(c, s)
    ensures ReadsStillBound(c, SchedulerStep(c, s))
  {
    hide HeldByWriters, HeldByPublishers, Uncounted, Balanced;
    if s.sched.PollReady? {
      WritersHoldOneEach(s.writers);
    } else if s.sched.PollPublished? {
      if HasRoom(c, s.sched.scheduled, s.sched.ready, s.sched.completed, s.publishedCount) { AdmissionIsSound(c, s); }
    }
  }

  /** Only a push adds to the upstream tasks; everything else can only drain them. */
  ghost predicate Drains(s: State, s': State) {
    && s'.sched == s.sched && s'.next == s.next
    && Upstream(s') <= Upstream(s) && |s'.scheduled| <= |s.scheduled| && |s.received| <= |s'.received|
  }

  lemma WriterDrains(s: State, w: nat, ok: bool)
    requires WriterEnabled(s, w)
    ensures Drains(s, WriterStep(s, w, ok))
  {
    WriterStepMoves(s, w, ok);
    hide WriterStep;
    WriterMoves(s.writers, w, WriterStep(s, w, ok).writers[w], 0);
  }

  lemma PublisherDrains(s: State, p: nat, ok: bool)
    requires PublisherEnabled(s, p)
    ensures Drains(s, PublisherStep(s, p, ok))
  {
    PublisherStepMoves(s, p, ok);
    hide PublisherStep;
  }

  lemma DrainingKeepsBounds(c: Limits, s: State, s': State)
    requires BoundInv(c, s) && Drains(s, s')
    ensures BoundInv(c, s')
  {
  }

  // ---- shutdown ----

  predicate Closed(pc: SchedulerPc) { pc.JoinWriters? || pc.JoinPublishers? || pc.Joined? }

  predicate WriterFailing(s: State) { exists k :: 0 <= k < |s.writers| && s.writers[k].WFailed? }

  predicate PublisherFailing(s: State) {
    exists k :: 0 <= k < |s.publishers| && (s.publishers[k].PFailed? || s.publishers[k].PStartFailed?)
  }

  /** The abort flag follows the error, and between the two the failing thread still has a step. */
  ghost predicate ErrorFlags(c: Limits, s: State) {
    && (s.abort ==> s.error)
    && (s.error && !s.abort ==> WriterFailing(s) || PublisherFailing(s))
    && (s.scheduleComplete <==> Closed(s.sched))
    && (!s.error && (s.sched.Close? || Closed(s.sched)) ==> s.next == c.tasks)
  }

  predicate AllGone(ws: seq<WriterPc>) { forall k :: 0 <= k < |ws| ==> ws[k].WGone? }

  /** `active_writers` counts the writers that have not left; the last one closes the ready queue. */
  ghost predicate LastOut(s: State) {
    && s.activeWriters == ActiveCount(s.writers)
    && (forall k :: 0 <= k < |s.writers| && s.writers[k].WLast? ==>
          s.activeWriters == 0 && !s.inputComplete && forall j :: 0 <= j < |s.writers| && j != k ==> s.writers[j].WGone?)
    && (s.inputComplete ==> AllGone(s.writers))
    && (s.activeWriters == 0 && !s.inputComplete ==> exists k :: 0 <= k < |s.writers| && s.writers[k].WLast?)
  }

  ghost predicate JoinOrder(s: State) {
    && (s.sched.JoinPublishers? || s.sched.Joined? ==> AllGone(s.writers))
    && (s.sched.Joined? ==> forall k :: 0 <= k < |s.publishers| ==> s.publishers[k].PGone?)
  }

  predicate WriterClean(s: State, pc: WriterPc) {
    match pc
    case WWait => true
    case WWriting(_) => true
    case WFailed(_) => false
    case _ => AtWriter(pc).None? && s.scheduleComplete && s.scheduled == []
  }

  predicate PublisherClean(s: State, pc: PublisherPc) {
    !pc.PStartFailed? && !pc.PFailed? && (pc.PGone? ==> pc.lost.None? && s.inputComplete && s.ready == [])
  }

  /** Without an error a writer leaves only when nothing is left to write, a publisher only when
      nothing is left to publish, and neither takes a task with it. */
  ghost predicate CleanExit(s: State) {
    !s.error ==>
      && (forall k :: 0 <= k < |s.writers| ==> WriterClean(s, s.writers[k]))
      && (forall k :: 0 <= k < |s.publishers| ==> PublisherClean(s, s.publishers[k]))
  }

  ghost predicate Shutdown(c: Limits, s: State) {
    ErrorFlags(c, s) && LastOut(s) && JoinOrder(s) && CleanExit(s)
  }

  lemma SchedulerErrorFlags(c: Limits, s: State)
    requires Shape(c, s) && ErrorFlags(c, s) && SchedulerEnabled(s)
    ensures ErrorFlags(c, SchedulerStep(c, s))
  {
    hide HeldByWriters, HeldByPublishers, Uncounted;
    match s.sched
    case ForHead =>
    case Push =>
    case Close =>
    case JoinWriters =>
    case JoinPublishers =>
    case _ =>
  }

  lemma SchedulerJoinOrder(c: Limits, s: State)
    requires JoinOrder(s) && SchedulerEnabled(s)
    ensures JoinOrder(SchedulerStep(c, s))
  {
    match s.sched
    case JoinWriters =>
    case JoinPublishers =>
    case _ =>
  }

  lemma SchedulerCleanExit(c: Limits, s: State)
    requires Shape(c, s) && ErrorFlags(c, s) && CleanExit(s) && LastOut(s) && SchedulerEnabled(s)
    ensures CleanExit(SchedulerStep(c, s)) && LastOut(SchedulerStep(c, s))
  {
    hide ActiveCount;
    match s.sched
    case Push =>
    case Close =>
    case _ =>
  }

  lemma SchedulerShutdown(c: Limits, s: State)
    requires Shape(c, s) && Shutdown(c, s) && SchedulerEnabled(s)
    ensures Shutdown(c, SchedulerStep(c, s))
  {
    hide Shape, ErrorFlags, LastOut, JoinOrder, CleanExit, SchedulerStep, SchedulerEnabled;
    SchedulerErrorFlags(c, s);
    SchedulerJoinOrder(c, s);
    SchedulerCleanExit(c, s);
  }

  lemma WriterErrorFlags(c: Limits, s: State, w: nat, ok: bool)
    requires ErrorFlags(c, s) && CleanExit(s) && WriterEnabled(s, w)
    ensures ErrorFlags(c, WriterStep(s, w, ok))
  {
    var s' := WriterStep(s, w, ok);
    if s'.error && !s'.abort {
      if !s.error {
        assert s'.writers[w].WFailed?;
      } else if WriterFailing(s) {
        var k :| 0 <= k < |s.writers| && s.writers[k].WFailed?;
        assert s'.writers[k].WFailed?;
      } else {
        assert PublisherFailing(s');
      }
    }
  }

  lemma PublisherErrorFlags(c: Limits, s: State, p: nat, ok: bool)
    requires ErrorFlags(c, s) && CleanExit(s) && PublisherEnabled(s, p)
    ensures ErrorFlags(c, PublisherStep(s, p, ok))
  {
    var s' := PublisherStep(s, p, ok);
    if s'.error && !s'.abort {
      if !s.error {
        assert s'.publishers[p].PFailed? || s'.publishers[p].PStartFailed?;
      } else if PublisherFailing(s) {
        var k :| 0 <= k < |s.publishers| && (s.publishers[k].PFailed? || s.publishers[k].PStartFailed?);
        assert s'.publishers[k] == s.publishers[k];
      } else {
        assert WriterFailing(s');
      }
    }
  }

  lemma {:induction false} ActiveCounts(ws: seq<WriterPc>, w: nat)
    requires w < |ws| && StillActive(ws[w])
    ensures ActiveCount(ws) >= 1
    ensures ActiveCount(ws) == 1 ==> forall j :: 0 <= j < |ws| && j != w ==> !StillActive(ws[j])
  {
    if w > 0 {
      ActiveCounts(ws[1..], w - 1);
    } else {
      NoneActive(ws[1..]);
    }
  }

  lemma {:induction false} NoneActive(ws: seq<WriterPc>)
    ensures ActiveCount(ws) == 0 ==> forall j :: 0 <= j < |ws| ==> !StillActive(ws[j])
  {
    if ws != [] { NoneActive(ws[1..]); }
  }

  /** A writer that is not about to leave changes nothing here. */
  lemma BusyLastOut(s: State, w: nat, ok: bool)
    requires LastOut(s) && WriterEnabled(s, w) && StillActive(s.writers[w]) && !s.writers[w].WLeaving?
    ensures LastOut(WriterStep(s, w, ok))
  {
    var s' := WriterStep(s, w, ok);
    ActiveCounts(s.writers, w);
    WriterMoves(s.writers, w, s'.writers[w], 0);
    assert s'.writers == s.writers[w := s'.writers[w]] && s'.activeWriters == s.activeWriters;
    assert StillActive(s'.writers[w]) && s'.inputComplete == s.inputComplete;
    hide WriterStep, ActiveCount;
  }

  lemma LeavingLastOut(s: State, w: nat, ok: bool)
    requires LastOut(s) && WriterEnabled(s, w) && s.writers[w].WLeaving?
    ensures LastOut(WriterStep(s, w, ok))
  {
    var s' := WriterStep(s, w, ok);
    ActiveCounts(s.writers, w);
    WriterMoves(s.writers, w, s'.writers[w], 0);
    hide ActiveCount;
    if s.activeWriters == 1 { assert s'.writers[w].WLast?; }
  }

  lemma ClosingLastOut(s: State, w: nat, ok: bool)
    requires LastOut(s) && WriterEnabled(s, w) && s.writers[w].WLast?
    ensures LastOut(WriterStep(s, w, ok))
  {
    WriterMoves(s.writers, w, WriterStep(s, w, ok).writers[w], 0);
    hide ActiveCount;
  }

  lemma WriterLastOut(s: State, w: nat, ok: bool)
    requires LastOut(s) && WriterEnabled(s, w)
    ensures LastOut(WriterStep(s, w, ok))
  {
    hide LastOut, WriterStep;
    match s.writers[w]
    case WLeaving(_) => LeavingLastOut(s, w, ok);
    case WLast(_) => ClosingLastOut(s, w, ok);
    case _ => BusyLastOut(s, w, ok);
  }

  lemma WriterCleanExit(s: State, w: nat, ok: bool)
    requires CleanExit(s) && LastOut(s) && (s.abort ==> s.error) && WriterEnabled(s, w)
    ensures CleanExit(WriterStep(s, w, ok))
  {
  }

  lemma PublisherCleanExit(s: State, p: nat, ok: bool)
    requires CleanExit(s) && (s.abort ==> s.error) && PublisherEnabled(s, p)
    ensures CleanExit(PublisherStep(s, p, ok))
  {
  }

  lemma WriterShutdown(c: Limits, s: State, w: nat, ok: bool)
    requires Shutdown(c, s) && WriterEnabled(s, w)
    ensures Shutdown(c, WriterStep(s, w, ok))
  {
    WriterErrorFlags(c, s, w, ok);
    WriterLastOut(s, w, ok);
    WriterCleanExit(s, w, ok);
    assert JoinOrder(WriterStep(s, w, ok));
  }

  lemma PublisherLeavesWriters(s: State, p: nat, ok: bool)
    requires LastOut(s) && JoinOrder(s) && PublisherEnabled(s, p)
    ensures LastOut(PublisherStep(s, p, ok)) && JoinOrder(PublisherStep(s, p, ok))
  {
    hide PublisherStep, ActiveCount;
    PublisherKeepsCounters(s, p, ok);
  }

  lemma PublisherKeepsCounters(s: State, p: nat, ok: bool)
    requires PublisherEnabled(s, p)
    ensures var s' := PublisherStep(s, p, ok);
            && s'.writers == s.writers && s'.sched == s.sched && |s'.publishers| == |s.publishers|
            && s'.activeWriters == s.activeWriters && s'.inputComplete == s.inputComplete
            && s'.scheduled == s.scheduled && s'.scheduleComplete == s.scheduleComplete
  {
    match s.publishers[p]
    case PStarting =>
    case PStartFailed =>
    case PWait =>
    case PSending(_) =>
    case PSent(_) =>
    case PFailed(_) =>
  }

  lemma PublisherShutdown(c: Limits, s: State, p: nat, ok: bool)
    requires Shutdown(c, s) && PublisherEnabled(s, p)
    ensures Shutdown(c, PublisherStep(s, p, ok))
  {
    var s' := PublisherStep(s, p, ok);
    PublisherErrorFlags(c, s, p, ok);
    PublisherCleanExit(s, p, ok);
    assert LastOut(s') && JoinOrder(s') by { PublisherLeavesWriters(s, p, ok); }
    hide ErrorFlags, LastOut, JoinOrder, CleanExit, PublisherStep;
  }

  // ---- the whole invariant, over every interleaving ----

  ghost predicate Inv(c: Limits, s: State) {
    Conserved(c, s) && BoundInv(c, s) && Shutdown(c, s)
  }

  lemma ResultConserves(c: Limits, s: State, m: ResultMessage)
    requires Conserved(c, s)
    ensures Conserved(c, WithResult(s, m))
  {
    assert forall k: nat :: PlacesOf(WithResult(s, m), k) == PlacesOf(s, k);
    hide PlacesOf;
  }

  lemma ResultShutdown(c: Limits, s: State, m: ResultMessage)
    requires Shutdown(c, s)
    ensures Shutdown(c, WithResult(s, m))
  {
    hide ActiveCount;
  }

  lemma ResultDrains(s: State, m: ResultMessage)
    ensures Drains(s, WithResult(s, m))
  {
    hide HeldByWriters;
    SubsetSize(s.received.Keys, WithResult(s, m).received.Keys);
  }

  lemma ResultKeepsInv(c: Limits, s: State, m: ResultMessage)
    requires Inv(c, s)
    ensures Inv(c, WithResult(s, m))
  {
    hide Conserved, BoundInv, Shutdown, Drains, WithResult;
    ResultConserves(c, s, m);
    ResultShutdown(c, s, m);
    ResultDrains(s, m);
    DrainingKeepsBounds(c, s, WithResult(s, m));
  }

  lemma SubsetSize<T>(a: set<T>, b: set<T>)
    requires a <= b
    ensures |a| <= |b|
  {
    assert b == a + (b - a);
  }

  lemma InvStep(c: Limits, s: State, e: Event)
    requires ValidLimits(c) && Inv(c, s) && Enabled(s, e)
    ensures Inv(c, Step(c, s, e))
  {
    match e
    case Scheduler => SchedulerConserves(c, s); SchedulerBounded(c, s); SchedulerReads(c, s); SchedulerShutdown(c, s);
    case Writer(w, ok) =>
      WriterConserves(c, s, w, ok); WriterShutdown(c, s, w, ok);
      WriterDrains(s, w, ok); DrainingKeepsBounds(c, s, WriterStep(s, w, ok));
    case Publisher(p, ok) =>
      PublisherConserves(c, s, p, ok); PublisherShutdown(c, s, p, ok);
      PublisherDrains(s, p, ok); DrainingKeepsBounds(c, s, PublisherStep(s, p, ok));
    case ResultArrives(m) => ResultKeepsInv(c, s, m);
  }
}
