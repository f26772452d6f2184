/** All loaded modules in load order, and what the manager's passes over them guarantee. */
module ModuleFleet {
  import opened Prelude
  import opened ModuleLifecycle

  /** What each hook of each module would answer; a pass calls each of them at most once. */
  type Hooks = (string, Hook) -> Status

  /** One hook call: whose, which, and the state of every module at that moment. */
  datatype Entry = Entry(index: nat, call: HookCall, before: seq<ModuleState>)

  datatype Fleet = Fleet(mods: seq<Mod>, log: seq<Entry>)

  datatype Pass = Pass(fleet: Fleet, status: Status)

  function States(mods: seq<Mod>): seq<ModuleState> {
    seq(|mods|, i requires 0 <= i < |mods| => mods[i].state)
  }

  function Entries(k: nat, calls: seq<HookCall>, before: seq<ModuleState>): seq<Entry> {
    seq(|calls|, i requires 0 <= i < |calls| => Entry(k, calls[i], before))
  }

  /** Module `k` becomes `m`; the hooks it called on the way are logged. */
  function Put(f: Fleet, k: nat, m: Mod): Fleet
    requires k < |f.mods| && |f.mods[k].calls| <= |m.calls|
  {
    Fleet(f.mods[k := m], f.log + Entries(k, m.calls[|f.mods[k].calls|..], States(f.mods)))
  }

  function InitFrom(f: Fleet, k: nat, hooks: Hooks): Pass
    requires k <= |f.mods|
    decreases |f.mods| - k
  {
    if k == |f.mods| then Pass(f, Success)
    else
      var c := InitSpec(f.mods[k], hooks(f.mods[k].name, OnInit));
      if c.status.Failure? then Pass(Put(f, k, c.mod), c.status) else InitFrom(Put(f, k, c.mod), k + 1, hooks)
  }

  function StartFrom(f: Fleet, k: nat, hooks: Hooks): Pass
    requires k <= |f.mods|
    decreases |f.mods| - k
  {
    if k == |f.mods| then Pass(f, Success)
    else
      var c := StartSpec(f.mods[k], hooks(f.mods[k].name, OnStart));
      if c.status.Failure? then Pass(Put(f, k, c.mod), c.status) else StartFrom(Put(f, k, c.mod), k + 1, hooks)
  }

  /** The passes that run backwards over the first `k` modules and remember the first error. */
  function StopDown(f: Fleet, k: nat, hooks: Hooks, first: Status): Pass
    requires k <= |f.mods|
    decreases k
  {
    if k == 0 then Pass(f, first)
    else
      var c := StopSpec(f.mods[k - 1], hooks(f.mods[k - 1].name, OnStop));
      StopDown(Put(f, k - 1, c.mod), k - 1, hooks, FirstError(first, c.status))
  }

  function FiniDown(f: Fleet, k: nat, hooks: Hooks, first: Status): Pass
    requires k <= |f.mods|
    decreases k
  {
    if k == 0 then Pass(f, first)
    else
      var c := FiniSpec(f.mods[k - 1], hooks(f.mods[k - 1].name, OnStop), hooks(f.mods[k - 1].name, OnFini));
      FiniDown(Put(f, k - 1, c.mod), k - 1, hooks, FirstError(first, c.status))
  }

  // One module of each pass, for the loops that run it.

  lemma InitNext(f: Fleet, k: nat, hooks: Hooks)
    requires k < |f.mods|
    ensures var c := InitSpec(f.mods[k], hooks(f.mods[k].name, OnInit));
            f.mods[k].calls <= c.mod.calls &&
            InitFrom(f, k, hooks)
              == if c.status.Failure? then Pass(Put(f, k, c.mod), c.status) else InitFrom(Put(f, k, c.mod), k + 1, hooks)
  {
  }

  lemma StartNext(f: Fleet, k: nat, hooks: Hooks)
    requires k < |f.mods|
    ensures var c := StartSpec(f.mods[k], hooks(f.mods[k].name, OnStart));
            f.mods[k].calls <= c.mod.calls &&
            StartFrom(f, k, hooks)
              == if c.status.Failure? then Pass(Put(f, k, c.mod), c.status) else StartFrom(Put(f, k, c.mod), k + 1, hooks)
  {
  }

  lemma StopNext(f: Fleet, k: nat, hooks: Hooks, first: Status)
    requires k < |f.mods|
    ensures var c := StopSpec(f.mods[k], hooks(f.mods[k].name, OnStop));
            f.mods[k].calls <= c.mod.calls &&
            StopDown(f, k + 1, hooks, first) == StopDown(Put(f, k, c.mod), k, hooks, FirstError(first, c.status))
  {
  }

  lemma FiniNext(f: Fleet, k: nat, hooks: Hooks, first: Status)
    requires k < |f.mods|
    ensures var c := FiniSpec(f.mods[k], hooks(f.mods[k].name, OnStop), hooks(f.mods[k].name, OnFini));
            f.mods[k].calls <= c.mod.calls &&
            FiniDown(f, k + 1, hooks, first) == FiniDown(Put(f, k, c.mod), k, hooks, FirstError(first, c.status))
  {
  }

  lemma InitDone(f: Fleet, hooks: Hooks)
    ensures InitFrom(f, |f.mods|, hooks) == Pass(f, Success)
  {
  }

  lemma StartDone(f: Fleet, hooks: Hooks)
    ensures StartFrom(f, |f.mods|, hooks) == Pass(f, Success)
  {
  }

  lemma StopDone(f: Fleet, hooks: Hooks, first: Status)
    ensures StopDown(f, 0, hooks, first) == Pass(f, first)
  {
  }

  lemma FiniDone(f: Fleet, hooks: Hooks, first: Status)
    ensures FiniDown(f, 0, hooks, first) == Pass(f, first)
  {
  }

  // ---- what holds of a fleet between passes ----

  function Rank(s: ModuleState): int {
    match s
    case Created => 0
    case Inited => 1
    case Started => 2
    case Stopped => 2
    case Finished => -1
  }

  /** Read in load order: {Started or Stopped}* Inited* Created*. */
  ghost predicate Shaped(mods: seq<Mod>) {
    && (forall i :: 0 <= i < |mods| ==> !mods[i].state.Finished?)
    && (forall i, j :: 0 <= i < j < |mods| ==> Rank(mods[i].state) >= Rank(mods[j].state))
  }

  /** OnInit and OnStart find all earlier modules up, OnFini finds all later modules down. */
  predicate Ordered(e: Entry) {
    && e.index < |e.before|
    && (e.call.hook.OnInit? ==> forall j :: 0 <= j < e.index ==> e.before[j].Inited?)
    && (e.call.hook.OnStart? ==> forall j :: 0 <= j < e.index ==> e.before[j].Started?)
    && (e.call.hook.OnFini? ==> forall j :: e.index < j < |e.before| ==> e.before[j].Finished?)
  }

  /** The calls of module `k` in the log. */
  function CallsOf(log: seq<Entry>, k: nat): seq<HookCall> {
    if log == [] then []
    else CallsOf(log[..|log| - 1], k) + if log[|log| - 1].index == k then [log[|log| - 1].call] else []
  }

  ghost predicate Recorded(f: Fleet) {
    && (forall e :: e in f.log ==> Ordered(e) && e.index < |f.mods|)
    && (forall k: nat :: k < |f.mods| ==> Disciplined(f.mods[k]) && CallsOf(f.log, k) == f.mods[k].calls)
  }

  ghost predicate Good(f: Fleet) { Shaped(f.mods) && Recorded(f) }

  // ---- the log under one change ----

  lemma {:induction false} CallsOfAppend(log: seq<Entry>, more: seq<Entry>, k: nat)
    ensures CallsOf(log + more, k) == CallsOf(log, k) + CallsOf(more, k)
  {
    if more == [] {
      assert log + more == log;
    } else {
      assert (log + more)[..|log + more| - 1] == log + more[..|more| - 1];
      CallsOfAppend(log, more[..|more| - 1], k);
    }
  }

  lemma {:induction false} CallsOfEntries(k: nat, calls: seq<HookCall>, before: seq<ModuleState>, j: nat)
    ensures CallsOf(Entries(k, calls, before), j) == if j == k then calls else []
    decreases |calls|
  {
    if calls != [] {
      var rest, last := calls[..|calls| - 1], calls[|calls| - 1];
      var log, short := Entries(k, calls, before), Entries(k, rest, before);
      assert log[..|calls| - 1] == short && log[|calls| - 1] == Entry(k, last, before);
      CallsOfEntries(k, rest, before, j);
      assert calls == rest + [last];
      hide Entries;
    }
  }

  lemma {:induction false} FreshHasNoCalls(log: seq<Entry>, k: nat)
    requires forall e :: e in log ==> e.index < k
    ensures CallsOf(log, k) == []
  {
    if log != [] {
      assert forall e :: e in log[..|log| - 1] ==> e in log;
      FreshHasNoCalls(log[..|log| - 1], k);
    }
  }

  /** `m` is module `k` after one lifecycle call that ran only hooks allowed at this moment. */
  ghost predicate Allowed(f: Fleet, k: nat, m: Mod)
    requires k < |f.mods|
  {
    && f.mods[k].calls <= m.calls && Disciplined(m)
    && forall i :: |f.mods[k].calls| <= i < |m.calls| ==> Ordered(Entry(k, m.calls[i], States(f.mods)))
  }

  lemma PutKeepsRecord(f: Fleet, k: nat, m: Mod)
    requires Recorded(f) && k < |f.mods| && Allowed(f, k, m)
    ensures Recorded(Put(f, k, m))
  {
    var f' := Put(f, k, m);
    var added := m.calls[|f.mods[k].calls|..];
    assert m.calls == f.mods[k].calls + added;
    var more := Entries(k, added, States(f.mods));
    forall e | e in f'.log ensures Ordered(e) && e.index < |f'.mods| {
      if e !in f.log {
        var i :| 0 <= i < |more| && more[i] == e;
        assert e == Entry(k, m.calls[|f.mods[k].calls| + i], States(f.mods));
      }
    }
    forall j: nat | j < |f'.mods| ensures Disciplined(f'.mods[j]) && CallsOf(f'.log, j) == f'.mods[j].calls {
      CallsOfAppend(f.log, more, j);
      CallsOfEntries(k, added, States(f.mods), j);
    }
  }

  // ---- the passes ----

  lemma AllowedByOne(f: Fleet, k: nat, m: Mod, c: HookCall)
    requires k < |f.mods| && Disciplined(m) && Ordered(Entry(k, c, States(f.mods)))
    requires m.calls == f.mods[k].calls || m.calls == f.mods[k].calls + [c]
    ensures Allowed(f, k, m)
  {
  }

  lemma InitAllowed(f: Fleet, k: nat, h: Status)
    requires Good(f) && k < |f.mods| && forall j :: 0 <= j < k ==> f.mods[j].state.Inited?
    ensures Allowed(f, k, InitSpec(f.mods[k], h).mod)
  {
    InitKeepsDiscipline(f.mods[k], h);
    var c := HookCall(OnInit, h.Success?);
    assert Ordered(Entry(k, c, States(f.mods)));
    AllowedByOne(f, k, InitSpec(f.mods[k], h).mod, c);
  }

  lemma InitShapes(mods: seq<Mod>, k: nat, h: Status)
    requires Shaped(mods) && k < |mods| && forall j :: 0 <= j < k ==> mods[j].state.Inited?
    ensures Shaped(mods[k := InitSpec(mods[k], h).mod])
  {
  }

  lemma InitOne(f: Fleet, k: nat, h: Status)
    requires Good(f) && k < |f.mods| && forall j :: 0 <= j < k ==> f.mods[j].state.Inited?
    ensures f.mods[k].calls <= InitSpec(f.mods[k], h).mod.calls && Good(Put(f, k, InitSpec(f.mods[k], h).mod))
  {
    var m := InitSpec(f.mods[k], h).mod;
    assert Allowed(f, k, m) by { InitAllowed(f, k, h); }
    assert Shaped(f.mods[k := m]) by { InitShapes(f.mods, k, h); }
    hide Recorded, Shaped, Allowed, InitSpec;
    PutKeepsRecord(f, k, m);
  }

  lemma {:induction false} InitKeepsGood(f: Fleet, k: nat, hooks: Hooks)
    requires Good(f) && k <= |f.mods| && forall j :: 0 <= j < k ==> f.mods[j].state.Inited?
    ensures Good(InitFrom(f, k, hooks).fleet)
    ensures InitFrom(f, k, hooks).status.Success? ==>
              forall m :: m in InitFrom(f, k, hooks).fleet.mods ==> m.state.Inited?
    decreases |f.mods| - k
  {
    if k < |f.mods| {
      var h := hooks(f.mods[k].name, OnInit);
      InitOne(f, k, h);
      var c := InitSpec(f.mods[k], h);
      if c.status.Success? { InitKeepsGood(Put(f, k, c.mod), k + 1, hooks); }
    }
  }

  lemma StartAllowed(f: Fleet, k: nat, h: Status)
    requires Good(f) && k < |f.mods| && forall j :: 0 <= j < k ==> f.mods[j].state.Started?
    ensures Allowed(f, k, StartSpec(f.mods[k], h).mod)
  {
    StartKeepsDiscipline(f.mods[k], h);
    var c := HookCall(OnStart, h.Success?);
    assert Ordered(Entry(k, c, States(f.mods)));
    AllowedByOne(f, k, StartSpec(f.mods[k], h).mod, c);
  }

  lemma StartShapes(mods: seq<Mod>, k: nat, h: Status)
    requires Shaped(mods) && k < |mods| && forall j :: 0 <= j < k ==> mods[j].state.Started?
    ensures Shaped(mods[k := StartSpec(mods[k], h).mod])
  {
  }

  lemma StartOne(f: Fleet, k: nat, h: Status)
    requires Good(f) && k < |f.mods| && forall j :: 0 <= j < k ==> f.mods[j].state.Started?
    ensures f.mods[k].calls <= StartSpec(f.mods[k], h).mod.calls && Good(Put(f, k, StartSpec(f.mods[k], h).mod))
  {
    var m := StartSpec(f.mods[k], h).mod;
    assert Allowed(f, k, m) by { StartAllowed(f, k, h); }
    assert Shaped(f.mods[k := m]) by { StartShapes(f.mods, k, h); }
    hide Recorded, Shaped, Allowed, StartSpec;
    PutKeepsRecord(f, k, m);
  }

  lemma {:induction false} StartKeepsGood(f: Fleet, k: nat, hooks: Hooks)
    requires Good(f) && k <= |f.mods| && forall j :: 0 <= j < k ==> f.mods[j].state.Started?
    ensures Good(StartFrom(f, k, hooks).fleet)
    ensures StartFrom(f, k, hooks).status.Success? ==>
              forall m :: m in StartFrom(f, k, hooks).fleet.mods ==> m.state.Started?
    decreases |f.mods| - k
  {
    if k < |f.mods| {
      var h := hooks(f.mods[k].name, OnStart);
      StartOne(f, k, h);
      var c := StartSpec(f.mods[k], h);
      if c.status.Success? { StartKeepsGood(Put(f, k, c.mod), k + 1, hooks); }
    }
  }

  lemma StopAllowed(f: Fleet, k: nat, h: Status)
    requires Good(f) && k < |f.mods|
    ensures Allowed(f, k, StopSpec(f.mods[k], h).mod)
  {
    StopKeepsDiscipline(f.mods[k], h);
    var c := HookCall(OnStop, h.Success?);
    assert Ordered(Entry(k, c, States(f.mods)));
    AllowedByOne(f, k, StopSpec(f.mods[k], h).mod, c);
  }

  lemma StopShapes(mods: seq<Mod>, k: nat, h: Status)
    requires Shaped(mods) && k < |mods|
    ensures Shaped(mods[k := StopSpec(mods[k], h).mod])
  {
  }

  lemma StopOne(f: Fleet, k: nat, h: Status)
    requires Good(f) && k < |f.mods|
    ensures f.mods[k].calls <= StopSpec(f.mods[k], h).mod.calls && Good(Put(f, k, StopSpec(f.mods[k], h).mod))
  {
    var m := StopSpec(f.mods[k], h).mod;
    assert Allowed(f, k, m) by { StopAllowed(f, k, h); }
    assert Shaped(f.mods[k := m]) by { StopShapes(f.mods, k, h); }
    hide Recorded, Shaped, Allowed, StopSpec;
    PutKeepsRecord(f, k, m);
  }

  lemma {:induction false} StopKeepsGood(f: Fleet, k: nat, hooks: Hooks, first: Status)
    requires Good(f) && k <= |f.mods|
    ensures Good(StopDown(f, k, hooks, first).fleet)
    decreases k
  {
    if k > 0 {
      var h := hooks(f.mods[k - 1].name, OnStop);
      StopOne(f, k - 1, h);
      var c := StopSpec(f.mods[k - 1], h);
      StopKeepsGood(Put(f, k - 1, c.mod), k - 1, hooks, FirstError(first, c.status));
    }
  }

  /** The modules from `k` on are down, the ones before it are not. */
  ghost predicate DownFrom(mods: seq<Mod>, k: nat) {
    && (forall j :: 0 <= j < k && j < |mods| ==> !mods[j].state.Finished?)
    && (forall j :: k <= j < |mods| ==> mods[j].state.Finished?)
  }

  lemma FiniOne(f: Fleet, k: nat, onStop: Status, onFini: Status)
    requires Recorded(f) && k < |f.mods| && DownFrom(f.mods, k + 1)
    ensures f.mods[k].calls <= FiniSpec(f.mods[k], onStop, onFini).mod.calls
    ensures Recorded(Put(f, k, FiniSpec(f.mods[k], onStop, onFini).mod))
    ensures DownFrom(Put(f, k, FiniSpec(f.mods[k], onStop, onFini).mod).mods, k)
  {
    hide Recorded, DownFrom, Disciplined, Allowed, FiniSpec;
    RecordedDiscipline(f, k);
    FiniAllowed(f, k, onStop, onFini);
    PutKeepsRecord(f, k, FiniSpec(f.mods[k], onStop, onFini).mod);
    FiniGoesDown(f, k, onStop, onFini);
  }

  lemma RecordedDiscipline(f: Fleet, k: nat)
    requires Recorded(f) && k < |f.mods|
    ensures Disciplined(f.mods[k])
  {
  }

  lemma FiniAllowed(f: Fleet, k: nat, onStop: Status, onFini: Status)
    requires k < |f.mods| && Disciplined(f.mods[k]) && DownFrom(f.mods, k + 1)
    ensures f.mods[k].calls <= FiniSpec(f.mods[k], onStop, onFini).mod.calls
    ensures Allowed(f, k, FiniSpec(f.mods[k], onStop, onFini).mod)
  {
    hide Disciplined;
    FiniKeepsDiscipline(f.mods[k], onStop, onFini);
  }

  lemma FiniGoesDown(f: Fleet, k: nat, onStop: Status, onFini: Status)
    requires k < |f.mods| && DownFrom(f.mods, k + 1)
    requires f.mods[k].calls <= FiniSpec(f.mods[k], onStop, onFini).mod.calls
    ensures DownFrom(Put(f, k, FiniSpec(f.mods[k], onStop, onFini).mod).mods, k)
  {
    assert FiniSpec(f.mods[k], onStop, onFini).mod.state.Finished?;
    hide FiniSpec;
  }

  lemma {:induction false} FiniTearsDown(f: Fleet, k: nat, hooks: Hooks, first: Status)
    requires Recorded(f) && k <= |f.mods| && DownFrom(f.mods, k)
    ensures Recorded(FiniDown(f, k, hooks, first).fleet)
    ensures |FiniDown(f, k, hooks, first).fleet.mods| == |f.mods| && DownFrom(FiniDown(f, k, hooks, first).fleet.mods, 0)
    ensures f.log <= FiniDown(f, k, hooks, first).fleet.log
    decreases k
  {
    hide Recorded, DownFrom, FiniSpec;
    if k > 0 {
      var stop, fini := hooks(f.mods[k - 1].name, OnStop), hooks(f.mods[k - 1].name, OnFini);
      FiniOne(f, k - 1, stop, fini);
      var c := FiniSpec(f.mods[k - 1], stop, fini);
      FiniTearsDown(Put(f, k - 1, c.mod), k - 1, hooks, FirstError(first, c.status));
    }
  }

  /** Init succeeds exactly when every module is new (or down) and every OnInit succeeds. */
  lemma {:induction false} InitSucceedsIff(f: Fleet, k: nat, hooks: Hooks)
    requires k <= |f.mods|
    ensures InitFrom(f, k, hooks).status.Success? <==>
              forall j :: k <= j < |f.mods| ==>
                (f.mods[j].state.Created? || f.mods[j].state.Finished?) && hooks(f.mods[j].name, OnInit).Success?
    decreases |f.mods| - k
  {
    if k < |f.mods| {
      var c := InitSpec(f.mods[k], hooks(f.mods[k].name, OnInit));
      if c.status.Success? {
        InitSucceedsIff(Put(f, k, c.mod), k + 1, hooks);
        assert forall j :: k < j < |f.mods| ==> Put(f, k, c.mod).mods[j] == f.mods[j];
      }
    }
  }

  /** Start succeeds exactly when every module is initialised or stopped and every OnStart succeeds;
      one module that is already running makes the whole pass fail. */
  lemma {:induction false} StartSucceedsIff(f: Fleet, k: nat, hooks: Hooks)
    requires k <= |f.mods|
    ensures StartFrom(f, k, hooks).status.Success? <==>
              forall j :: k <= j < |f.mods| ==>
                (f.mods[j].state.Inited? || f.mods[j].state.Stopped?) && hooks(f.mods[j].name, OnStart).Success?
    decreases |f.mods| - k
  {
    if k < |f.mods| {
      var c := StartSpec(f.mods[k], hooks(f.mods[k].name, OnStart));
      if c.status.Success? {
        StartSucceedsIff(Put(f, k, c.mod), k + 1, hooks);
        assert forall j :: k < j < |f.mods| ==> Put(f, k, c.mod).mods[j] == f.mods[j];
      }
    }
  }

  // ---- every manager run ----

  datatype Op = Load(added: seq<Mod>) | InitAll(hooks: Hooks) | StartAll(hooks: Hooks) | StopAll(hooks: Hooks) | FiniAll(hooks: Hooks)

  predicate Fresh(m: Mod) { m.state.Created? && m.calls == [] && !m.hasContext }

  predicate Permitted(op: Op) {
    op.Load? ==> forall i :: 0 <= i < |op.added| ==> Fresh(op.added[i])
  }

  /** The fleet right after the operation; Fini additionally empties it. */
  function Perform(f: Fleet, op: Op): Pass {
    match op
    case Load(added) => Pass(Fleet(f.mods + added, f.log), Success)
    case InitAll(h) => InitFrom(f, 0, h)
    case StartAll(h) => StartFrom(f, 0, h)
    case StopAll(h) => StopDown(f, |f.mods|, h, Success)
    case FiniAll(h) => FiniDown(f, |f.mods|, h, Success)
  }

  const EMPTY := Fleet([], [])

  function After(f: Fleet, op: Op): Fleet {
    if op.FiniAll? then EMPTY else Perform(f, op).fleet
  }

  ghost predicate FleetRuns(from: Fleet, ops: seq<Op>, to: Fleet)
    decreases |ops|
  {
    if ops == [] then from == to
    else Permitted(ops[0]) && FleetRuns(After(from, ops[0]), ops[1..], to)
  }

  lemma EmptyIsGood()
    ensures Good(EMPTY)
  {
  }

  lemma LoadKeepsGood(f: Fleet, added: seq<Mod>)
    requires Good(f) && Permitted(Load(added))
    ensures Good(Fleet(f.mods + added, f.log))
  {
    var f' := Fleet(f.mods + added, f.log);
    forall k: nat | k < |f'.mods| ensures Disciplined(f'.mods[k]) && CallsOf(f'.log, k) == f'.mods[k].calls {
      if k >= |f.mods| { FreshHasNoCalls(f.log, k); }
    }
  }

  lemma OperationKeepsGood(f: Fleet, op: Op)
    requires Good(f) && Permitted(op)
    ensures Good(After(f, op))
  {
    match op
    case Load(added) => LoadKeepsGood(f, added);
    case InitAll(h) => InitKeepsGood(f, 0, h);
    case StartAll(h) => StartKeepsGood(f, 0, h);
    case StopAll(h) => StopKeepsGood(f, |f.mods|, h, Success);
    case FiniAll(_) =>
  }

  /** In every manager run, whatever the hooks answer: the states in load order keep their shape, the
      log is complete, and every hook ran in its bracket. */
  lemma {:induction false} EveryRunIsGood(f: Fleet, ops: seq<Op>, f': Fleet)
    requires Good(f) && FleetRuns(f, ops, f')
    ensures Good(f')
    decreases |ops|
  {
    if ops != [] {
      OperationKeepsGood(f, ops[0]);
      EveryRunIsGood(After(f, ops[0]), ops[1..], f');
    }
  }

  /** Module `k` is down; its successful OnInits and its OnFinis are paired off in order, each successful
      OnStart was followed by an OnStop, and the log has all of its calls. */
  ghost predicate TornDown(g: Fleet, k: nat)
    requires k < |g.mods|
  {
    var calls := g.mods[k].calls;
    && g.mods[k].state.Finished? && CallsOf(g.log, k) == calls && OpenBrackets(calls) == 0
    && (forall i :: 0 <= i < |calls| && Opens(calls[i]) ==> exists j :: Pair(calls, i, j))
    && (forall j :: 0 <= j < |calls| && calls[j].hook.OnFini? ==> exists i :: Pair(calls, i, j))
    && (forall i :: 0 <= i < |calls| && Runs(calls[i]) ==> exists j :: i < j < |calls| && calls[j].hook.OnStop?)
  }

  /** When the manager's Fini returns, whatever failed before or during it, every module is torn down,
      each after all later ones.  Every state that a manager can be in is `Good`. */
  lemma FiniClosesEveryBracket(f: Fleet, hooks: Hooks)
    requires Good(f)
    ensures var g := Perform(f, FiniAll(hooks)).fleet;
            && |g.mods| == |f.mods| && (forall k :: 0 <= k < |g.mods| ==> TornDown(g, k))
            && (forall e :: e in g.log ==> Ordered(e))
  {
    hide TornDown, Ordered, Shaped, FiniDown, DownFrom;
    NoneIsDown(f.mods);
    FiniTearsDown(f, |f.mods|, hooks, Success);
    var g := Perform(f, FiniAll(hooks)).fleet;
    forall k | 0 <= k < |g.mods| ensures TornDown(g, k) { DownIsTornDown(g, k); }
  }

  lemma NoneIsDown(mods: seq<Mod>)
    requires Shaped(mods)
    ensures DownFrom(mods, |mods|)
  {
  }

  lemma DownIsTornDown(g: Fleet, k: nat)
    requires Recorded(g) && DownFrom(g.mods, 0) && k < |g.mods|
    ensures TornDown(g, k)
  {
    hide Pair, StillOpen, OpenBrackets, CallsOf;
    LegalHistoryBrackets(g.mods[k].calls);
  }
}
