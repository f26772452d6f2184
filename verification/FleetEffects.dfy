/** What each of the manager's passes does to every module, which error it reports, and in which order it
    calls the hooks. */
module FleetEffects {
  import opened Prelude
  import opened ModuleLifecycle
  import opened ModuleFleet

  // ---- the log ----

  /** The hook calls logged since `f` come from later modules first. */
  predicate Backward(f: Fleet, g: Fleet) {
    f.log <= g.log && forall i, j :: |f.log| <= i < j < |g.log| ==> g.log[i].index >= g.log[j].index
  }

  /** ... from earlier modules first. */
  predicate Forward(f: Fleet, g: Fleet) {
    f.log <= g.log && forall i, j :: |f.log| <= i < j < |g.log| ==> g.log[i].index <= g.log[j].index
  }

  predicate LoggedFrom(f: Fleet, g: Fleet, lo: nat, hi: nat) {
    f.log <= g.log && forall i :: |f.log| <= i < |g.log| ==> lo <= g.log[i].index < hi
  }

  lemma PutLogs(f: Fleet, k: nat, m: Mod)
    requires k < |f.mods| && |f.mods[k].calls| <= |m.calls|
    ensures LoggedFrom(f, Put(f, k, m), k, k + 1)
    ensures Put(f, k, m).mods == f.mods[k := m]
  {
  }

  lemma ThenBelow(f: Fleet, p: Fleet, g: Fleet, k: nat)
    requires LoggedFrom(f, p, k, k + 1) && LoggedFrom(p, g, 0, k) && Backward(p, g)
    ensures LoggedFrom(f, g, 0, k + 1) && Backward(f, g)
  {
    assert forall i :: 0 <= i < |p.log| ==> g.log[i] == p.log[i];
  }

  lemma ThenAbove(f: Fleet, p: Fleet, g: Fleet, k: nat, n: nat)
    requires LoggedFrom(f, p, k, k + 1) && LoggedFrom(p, g, k + 1, n) && Forward(p, g) && k < n
    ensures LoggedFrom(f, g, k, n) && Forward(f, g)
  {
    assert forall i :: 0 <= i < |p.log| ==> g.log[i] == p.log[i];
  }

  // ---- the backward passes ----

  predicate IsLastError(errors: seq<Status>, k: nat, status: Status) {
    k < |errors| && errors[k] == status && forall j :: k < j < |errors| ==> errors[j].Success?
  }

  /** What is reported: the first error met, that is of the last module in load order that has one. */
  ghost predicate ReportsLast(errors: seq<Status>, status: Status) {
    && (status.Success? <==> forall k :: 0 <= k < |errors| ==> errors[k].Success?)
    && (status.Failure? ==> exists k :: 0 <= k < |errors| && IsLastError(errors, k, status))
  }

  function StopErrors(mods: seq<Mod>, h: Hooks): (es: seq<Status>)
    ensures |es| == |mods| && forall k :: 0 <= k < |mods| ==> es[k] == StopError(mods[k], h(mods[k].name, OnStop))
  {
    seq(|mods|, k requires 0 <= k < |mods| => StopError(mods[k], h(mods[k].name, OnStop)))
  }

  function TearDownErrors(mods: seq<Mod>, h: Hooks): (es: seq<Status>)
    ensures |es| == |mods|
    ensures forall k :: 0 <= k < |mods| ==> es[k] == TearDownError(mods[k], h(mods[k].name, OnStop), h(mods[k].name, OnFini))
  {
    seq(|mods|, k requires 0 <= k < |mods| => TearDownError(mods[k], h(mods[k].name, OnStop), h(mods[k].name, OnFini)))
  }

  lemma ReportsOneMore(errors: seq<Status>, k: nat, status: Status)
    requires k + 1 == |errors|
    requires if errors[k].Failure? then status == errors[k] else ReportsLast(errors[..k], status)
    ensures ReportsLast(errors, status)
  {
    var init := errors[..k];
    assert forall j :: 0 <= j < k ==> init[j] == errors[j];
    if errors[k].Failure? {
      assert IsLastError(errors, k, status);
    } else if status.Failure? {
      var i :| 0 <= i < k && IsLastError(init, i, status);
      assert IsLastError(errors, i, status) by { LastErrorStays(errors, k, i, status); }
      assert errors[i].Failure?;
    }
  }

  lemma LastErrorStays(errors: seq<Status>, k: nat, i: nat, status: Status)
    requires k + 1 == |errors| && errors[k].Success? && IsLastError(errors[..k], i, status)
    ensures IsLastError(errors, i, status)
  {
    forall j | i < j < |errors| ensures errors[j].Success? {
      if j < k { assert errors[..k][j] == errors[j]; }
    }
  }

  /** The first `k` modules are dealt with, the others left alone. */
  lemma {:induction false} StopDownEffects(f: Fleet, k: nat, h: Hooks, first: Status)
    requires k <= |f.mods|
    ensures var p := StopDown(f, k, h, first);
            && |p.fleet.mods| == |f.mods|
            && (forall j :: 0 <= j < k ==> StoppedAs(f.mods[j], h(f.mods[j].name, OnStop), p.fleet.mods[j]))
            && (forall j :: k <= j < |f.mods| ==> p.fleet.mods[j] == f.mods[j])
            && LoggedFrom(f, p.fleet, 0, k) && Backward(f, p.fleet)
            && (if first.Failure? then p.status == first else ReportsLast(StopErrors(f.mods[..k], h), p.status))
    decreases k
  {
    hide Put, StopSpec, StoppedAs, StopError, LoggedFrom, Backward, ReportsLast;
    if k == 0 {
      NothingLogged(f);
      NothingReported();
      StopDone(f, h, first);
    } else {
      var m, o := f.mods[k - 1], h(f.mods[k - 1].name, OnStop);
      var c := StopSpec(m, o);
      OneModule(m, o, o);
      StopNext(f, k - 1, h, first);
      PutLogs(f, k - 1, c.mod);
      var p := Put(f, k - 1, c.mod);
      StopDownEffects(p, k - 1, h, FirstError(first, c.status));
      ThenBelow(f, p, StopDown(p, k - 1, h, FirstError(first, c.status)).fleet, k - 1);
      if first.Success? {
        assert p.mods[..k - 1] == f.mods[..k][..k - 1];
        assert StopErrors(f.mods[..k], h)[..k - 1] == StopErrors(p.mods[..k - 1], h);
        ReportsOneMore(StopErrors(f.mods[..k], h), k - 1, StopDown(f, k, h, first).status);
      }
    }
  }

  lemma NothingLogged(f: Fleet)
    ensures forall lo: nat, hi: nat :: LoggedFrom(f, f, lo, hi)
    ensures Backward(f, f) && Forward(f, f)
  {
  }

  lemma NothingReported()
    ensures ReportsLast([], Success)
  {
  }

  lemma {:induction false} FiniDownEffects(f: Fleet, k: nat, h: Hooks, first: Status)
    requires k <= |f.mods|
    ensures var p := FiniDown(f, k, h, first);
            && |p.fleet.mods| == |f.mods|
            && (forall j :: 0 <= j < k ==>
                  TornDownAs(f.mods[j], h(f.mods[j].name, OnStop), h(f.mods[j].name, OnFini), p.fleet.mods[j]))
            && (forall j :: k <= j < |f.mods| ==> p.fleet.mods[j] == f.mods[j])
            && LoggedFrom(f, p.fleet, 0, k) && Backward(f, p.fleet)
            && (if first.Failure? then p.status == first else ReportsLast(TearDownErrors(f.mods[..k], h), p.status))
    decreases k
  {
    hide Put, FiniSpec, TornDownAs, TearDownError, LoggedFrom, Backward, ReportsLast;
    if k == 0 {
      NothingLogged(f);
      NothingReported();
      FiniDone(f, h, first);
    } else {
      var m, a, b := f.mods[k - 1], h(f.mods[k - 1].name, OnStop), h(f.mods[k - 1].name, OnFini);
      var c := FiniSpec(m, a, b);
      OneModule(m, a, b);
      FiniNext(f, k - 1, h, first);
      PutLogs(f, k - 1, c.mod);
      var p := Put(f, k - 1, c.mod);
      FiniDownEffects(p, k - 1, h, FirstError(first, c.status));
      ThenBelow(f, p, FiniDown(p, k - 1, h, FirstError(first, c.status)).fleet, k - 1);
      if first.Success? {
        assert p.mods[..k - 1] == f.mods[..k][..k - 1];
        assert TearDownErrors(f.mods[..k], h)[..k - 1] == TearDownErrors(p.mods[..k - 1], h);
        ReportsOneMore(TearDownErrors(f.mods[..k], h), k - 1, FiniDown(f, k, h, first).status);
      }
    }
  }

  // ---- the forward passes ----

  lemma {:induction false} InitFromEffects(f: Fleet, k: nat, h: Hooks)
    requires k <= |f.mods|
    ensures var p := InitFrom(f, k, h);
            && |p.fleet.mods| == |f.mods| && LoggedFrom(f, p.fleet, k, |f.mods|) && Forward(f, p.fleet)
            && (forall j :: 0 <= j < k ==> p.fleet.mods[j] == f.mods[j])
            && exists n: nat {:trigger InitReaches(f, k, h, n, p)} :: InitReaches(f, k, h, n, p)
    decreases |f.mods| - k
  {
    hide Put, InitSpec, InitedAs, InitError, LoggedFrom, Forward;
    if k == |f.mods| {
      NothingLogged(f);
      InitDone(f, h);
      assert InitReaches(f, k, h, k, InitFrom(f, k, h));
    } else {
      var m, o := f.mods[k], h(f.mods[k].name, OnInit);
      var c := InitSpec(m, o);
      OneModule(m, o, o);
      InitNext(f, k, h);
      PutLogs(f, k, c.mod);
      var p := Put(f, k, c.mod);
      if c.status.Failure? {
        NothingLogged(p);
        ThenAbove(f, p, p, k, |f.mods|);
        assert InitReaches(f, k, h, k, InitFrom(f, k, h));
      } else {
        InitFromEffects(p, k + 1, h);
        var r := InitFrom(p, k + 1, h);
        ThenAbove(f, p, r.fleet, k, |f.mods|);
        var n: nat :| InitReaches(p, k + 1, h, n, r);
        InitReachesOn(f, k, h, n, p, r);
      }
    }
  }

  lemma InitReachesOn(f: Fleet, k: nat, h: Hooks, n: nat, p: Fleet, r: Pass)
    requires k < |f.mods| == |p.mods| && InitReaches(p, k + 1, h, n, r)
    requires forall j :: 0 <= j < |f.mods| && j != k ==> p.mods[j] == f.mods[j]
    requires InitError(f.mods[k], h(f.mods[k].name, OnInit)).Success?
    requires InitedAs(f.mods[k], h(f.mods[k].name, OnInit), r.fleet.mods[k])
    ensures InitReaches(f, k, h, n, r)
  {
    hide InitedAs, InitError;
    forall j | k <= j < n
      ensures InitError(f.mods[j], h(f.mods[j].name, OnInit)).Success? && InitedAs(f.mods[j], h(f.mods[j].name, OnInit), r.fleet.mods[j])
    {
      if j > k { assert p.mods[j] == f.mods[j]; }
    }
  }

  /** Modules `k` to `n - 1` are initialised; module `n`, if there is one, fails, and its error is
      reported; later ones are left alone. */
  predicate InitReaches(f: Fleet, k: nat, h: Hooks, n: nat, p: Pass) {
    && k <= n <= |f.mods| == |p.fleet.mods|
    && (forall j :: k <= j < n ==>
          InitError(f.mods[j], h(f.mods[j].name, OnInit)).Success? &&
          InitedAs(f.mods[j], h(f.mods[j].name, OnInit), p.fleet.mods[j]))
    && (forall j :: n < j < |f.mods| ==> p.fleet.mods[j] == f.mods[j])
    && (if n == |f.mods| then p.status.Success?
        else
          && p.status.Failure? && p.status == InitError(f.mods[n], h(f.mods[n].name, OnInit))
          && InitedAs(f.mods[n], h(f.mods[n].name, OnInit), p.fleet.mods[n]))
  }

  lemma {:induction false} StartFromEffects(f: Fleet, k: nat, h: Hooks)
    requires k <= |f.mods|
    ensures var p := StartFrom(f, k, h);
            && |p.fleet.mods| == |f.mods| && LoggedFrom(f, p.fleet, k, |f.mods|) && Forward(f, p.fleet)
            && (forall j :: 0 <= j < k ==> p.fleet.mods[j] == f.mods[j])
            && exists n: nat {:trigger StartReaches(f, k, h, n, p)} :: StartReaches(f, k, h, n, p)
    decreases |f.mods| - k
  {
    hide Put, StartSpec, StartedAs, StartError, LoggedFrom, Forward;
    if k == |f.mods| {
      NothingLogged(f);
      StartDone(f, h);
      assert StartReaches(f, k, h, k, StartFrom(f, k, h));
    } else {
      var m, o := f.mods[k], h(f.mods[k].name, OnStart);
      var c := StartSpec(m, o);
      OneModule(m, o, o);
      StartNext(f, k, h);
      PutLogs(f, k, c.mod);
      var p := Put(f, k, c.mod);
      if c.status.Failure? {
        NothingLogged(p);
        ThenAbove(f, p, p, k, |f.mods|);
        assert StartReaches(f, k, h, k, StartFrom(f, k, h));
      } else {
        StartFromEffects(p, k + 1, h);
        var r := StartFrom(p, k + 1, h);
        ThenAbove(f, p, r.fleet, k, |f.mods|);
        var n: nat :| StartReaches(p, k + 1, h, n, r);
        StartReachesOn(f, k, h, n, p, r);
      }
    }
  }

  lemma StartReachesOn(f: Fleet, k: nat, h: Hooks, n: nat, p: Fleet, r: Pass)
    requires k < |f.mods| == |p.mods| && StartReaches(p, k + 1, h, n, r)
    requires forall j :: 0 <= j < |f.mods| && j != k ==> p.mods[j] == f.mods[j]
    requires StartError(f.mods[k], h(f.mods[k].name, OnStart)).Success?
    requires StartedAs(f.mods[k], h(f.mods[k].name, OnStart), r.fleet.mods[k])
    ensures StartReaches(f, k, h, n, r)
  {
    hide StartedAs, StartError;
    forall j | k <= j < n
      ensures StartError(f.mods[j], h(f.mods[j].name, OnStart)).Success? && StartedAs(f.mods[j], h(f.mods[j].name, OnStart), r.fleet.mods[j])
    {
      if j > k { assert p.mods[j] == f.mods[j]; }
    }
  }

  predicate StartReaches(f: Fleet, k: nat, h: Hooks, n: nat, p: Pass) {
    && k <= n <= |f.mods| == |p.fleet.mods|
    && (forall j :: k <= j < n ==>
          StartError(f.mods[j], h(f.mods[j].name, OnStart)).Success? &&
          StartedAs(f.mods[j], h(f.mods[j].name, OnStart), p.fleet.mods[j]))
    && (forall j :: n < j < |f.mods| ==> p.fleet.mods[j] == f.mods[j])
    && (if n == |f.mods| then p.status.Success?
        else
          && p.status.Failure? && p.status == StartError(f.mods[n], h(f.mods[n].name, OnStart))
          && StartedAs(f.mods[n], h(f.mods[n].name, OnStart), p.fleet.mods[n]))
  }

  // ---- the manager's operations ----

  /** Stopping all modules: every one that runs has its OnStop called, in reverse load order and whatever the
      others answer, and is stopped exactly when that succeeds; the others are left alone.  The pass succeeds
      exactly when all were running and every OnStop succeeded, and otherwise reports the error of the last
      module in load order that has one. */
  lemma StopAllStops(f: Fleet, h: Hooks)
    requires Good(f)
    ensures var p := Perform(f, StopAll(h));
            && |p.fleet.mods| == |f.mods|
            && (forall k :: 0 <= k < |f.mods| ==> StoppedAs(f.mods[k], h(f.mods[k].name, OnStop), p.fleet.mods[k]))
            && (forall k :: 0 <= k < |f.mods| ==> CallsOf(p.fleet.log, k) == p.fleet.mods[k].calls)
            && Backward(f, p.fleet) && ReportsLast(StopErrors(f.mods, h), p.status)
  {
    hide StoppedAs, Backward, StopErrors, ReportsLast, LoggedFrom, Good, CallsOf;
    StopDownEffects(f, |f.mods|, h, Success);
    OperationKeepsGood(f, StopAll(h));
    GoodIsLogged(Perform(f, StopAll(h)).fleet);
    assert f.mods[..|f.mods|] == f.mods;
  }

  lemma GoodIsLogged(g: Fleet)
    requires Good(g)
    ensures forall k :: 0 <= k < |g.mods| ==> CallsOf(g.log, k) == g.mods[k].calls
  {
    hide CallsOf, Ordered, Disciplined;
  }

  /** Tearing all modules down, likewise; Fini of the manager then forgets them. */
  lemma FiniAllTearsDown(f: Fleet, h: Hooks)
    requires Good(f)
    ensures var p := Perform(f, FiniAll(h));
            && |p.fleet.mods| == |f.mods|
            && (forall k :: 0 <= k < |f.mods| ==>
                  TornDownAs(f.mods[k], h(f.mods[k].name, OnStop), h(f.mods[k].name, OnFini), p.fleet.mods[k]))
            && (forall k :: 0 <= k < |f.mods| ==> CallsOf(p.fleet.log, k) == p.fleet.mods[k].calls)
            && Backward(f, p.fleet) && ReportsLast(TearDownErrors(f.mods, h), p.status)
  {
    hide TornDownAs, Backward, TearDownErrors, ReportsLast, Good, TornDown, CallsOf, LoggedFrom, Ordered;
    FiniDownEffects(f, |f.mods|, h, Success);
    FiniClosesEveryBracket(f, h);
    forall k | 0 <= k < |f.mods| ensures CallsOf(Perform(f, FiniAll(h)).fleet.log, k) == Perform(f, FiniAll(h)).fleet.mods[k].calls {
      TornDownIsLogged(Perform(f, FiniAll(h)).fleet, k);
    }
    assert f.mods[..|f.mods|] == f.mods;
  }

  lemma TornDownIsLogged(g: Fleet, k: nat)
    requires k < |g.mods| && TornDown(g, k)
    ensures CallsOf(g.log, k) == g.mods[k].calls
  {
  }

  /** Initialising all modules goes on in load order up to the first that fails, and reports its error. */
  lemma InitAllInits(f: Fleet, h: Hooks)
    requires Good(f)
    ensures var p := Perform(f, InitAll(h));
            && (forall k :: 0 <= k < |p.fleet.mods| ==> CallsOf(p.fleet.log, k) == p.fleet.mods[k].calls)
            && Forward(f, p.fleet)
            && exists n: nat {:trigger InitReaches(f, 0, h, n, p)} :: InitReaches(f, 0, h, n, p)
  {
    hide Forward, InitReaches, LoggedFrom, Good, CallsOf;
    InitFromEffects(f, 0, h);
    OperationKeepsGood(f, InitAll(h));
    GoodIsLogged(Perform(f, InitAll(h)).fleet);
  }

  /** Starting all modules, likewise. */
  lemma StartAllStarts(f: Fleet, h: Hooks)
    requires Good(f)
    ensures var p := Perform(f, StartAll(h));
            && (forall k :: 0 <= k < |p.fleet.mods| ==> CallsOf(p.fleet.log, k) == p.fleet.mods[k].calls)
            && Forward(f, p.fleet)
            && exists n: nat {:trigger StartReaches(f, 0, h, n, p)} :: StartReaches(f, 0, h, n, p)
  {
    hide Forward, StartReaches, LoggedFrom, Good, CallsOf;
    StartFromEffects(f, 0, h);
    OperationKeepsGood(f, StartAll(h));
    GoodIsLogged(Perform(f, StartAll(h)).fleet);
  }
}
