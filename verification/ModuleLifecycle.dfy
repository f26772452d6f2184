/** One module's life: the transition table, the four lifecycle calls, and the bracket discipline
    that its hook calls obey. */
module ModuleLifecycle {
  import opened Prelude

  datatype ModuleState = Created | Inited | Started | Stopped | Finished

  datatype Hook = OnInit | OnStart | OnStop | OnFini

  datatype HookCall = HookCall(hook: Hook, ok: bool)

  /** `kValidTransitions`, one row per current state. */
  predicate IsValidTransition(from: ModuleState, to: ModuleState) {
    match from
    case Created => to.Inited? || to.Finished?
    case Inited => to.Started? || to.Finished?
    case Started => to.Stopped? || to.Finished?
    case Stopped => to.Started? || to.Finished?
    case Finished => to.Inited?
  }

  /** A module as a value; `calls` records the hooks that have run and how they ended. */
  datatype Mod = Mod(name: string, isBus: bool, state: ModuleState, hasContext: bool, calls: seq<HookCall>)

  datatype Change = Change(mod: Mod, status: Status)

  function Called(m: Mod, hook: Hook, outcome: Status): Mod {
    m.(calls := m.calls + [HookCall(hook, outcome.Success?)])
  }

  function InitSpec(m: Mod, onInit: Status): Change {
    if !IsValidTransition(m.state, Inited) then Change(m, Failure(InvalidState))
    else if onInit.Success? then Change(Called(m, OnInit, onInit).(hasContext := true, state := Inited), Success)
    else Change(Called(m, OnInit, onInit).(hasContext := false), onInit)
  }

  function StartSpec(m: Mod, onStart: Status): Change {
    if !IsValidTransition(m.state, Started) then Change(m, Failure(InvalidState))
    else if onStart.Success? then Change(Called(m, OnStart, onStart).(state := Started), Success)
    else Change(Called(m, OnStart, onStart), onStart)
  }

  function StopSpec(m: Mod, onStop: Status): Change {
    if !IsValidTransition(m.state, Stopped) then Change(m, Failure(InvalidState))
    else if onStop.Success? then Change(Called(m, OnStop, onStop).(state := Stopped), Success)
    else Change(Called(m, OnStop, onStop), onStop)
  }

  function FirstError(first: Status, second: Status): Status {
    if first.Success? then second else first
  }

  /** Fini stops a running module first and goes on when that fails. */
  function FiniSpec(m: Mod, onStop: Status, onFini: Status): Change {
    match m.state
    case Finished => Change(m, Failure(InvalidState))
    case Created => Change(m.(hasContext := false, state := Finished), Success)
    case Started =>
      Change(Called(Called(m, OnStop, onStop), OnFini, onFini).(hasContext := false, state := Finished),
             FirstError(onStop, onFini))
    case _ => Change(Called(m, OnFini, onFini).(hasContext := false, state := Finished), onFini)
  }

  // ---- the bracket discipline ----

  /** `Winding`: running, and the latest attempt to stop it failed. */
  datatype Phase = Down | Idle | Running | Winding

  /** The one legal successor of a phase under a hook call, if there is one. */
  function NextPhase(p: Phase, c: HookCall): Option<Phase> {
    match c.hook
    case OnInit => if p.Down? then Some(if c.ok then Idle else Down) else None
    case OnStart => if p.Idle? then Some(if c.ok then Running else Idle) else None
    case OnStop => if p.Running? || p.Winding? then Some(if c.ok then Idle else Winding) else None
    case OnFini => if p.Idle? || p.Winding? then Some(Down) else None
  }

  function Replay(calls: seq<HookCall>): Option<Phase> {
    if calls == [] then Some(Down)
    else
      var before := Replay(calls[..|calls| - 1]);
      if before.None? then None else NextPhase(before.value, calls[|calls| - 1])
  }

  predicate PhaseOfState(s: ModuleState, p: Phase) {
    match s
    case Created => p.Down?
    case Inited => p.Idle?
    case Started => p.Running? || p.Winding?
    case Stopped => p.Idle?
    case Finished => p.Down?
  }

  /** The module's hook history is legal and agrees with its state. */
  ghost predicate Disciplined(m: Mod) {
    Replay(m.calls).Some? && PhaseOfState(m.state, Replay(m.calls).value)
  }

  lemma ReplaySnoc(calls: seq<HookCall>, c: HookCall)
    ensures Replay(calls + [c]) == if Replay(calls).None? then None else NextPhase(Replay(calls).value, c)
  {
    assert (calls + [c])[..|calls|] == calls;
  }

  // Every lifecycle call, legal or not and whatever its hooks answer, keeps the discipline.

  lemma InitKeepsDiscipline(m: Mod, h: Status)
    requires Disciplined(m)
    ensures Disciplined(InitSpec(m, h).mod)
  {
    hide Replay;
    ReplaySnoc(m.calls, HookCall(OnInit, h.Success?));
  }

  lemma StartKeepsDiscipline(m: Mod, h: Status)
    requires Disciplined(m)
    ensures Disciplined(StartSpec(m, h).mod)
  {
    hide Replay;
    ReplaySnoc(m.calls, HookCall(OnStart, h.Success?));
  }

  lemma StopKeepsDiscipline(m: Mod, h: Status)
    requires Disciplined(m)
    ensures Disciplined(StopSpec(m, h).mod)
  {
    hide Replay;
    ReplaySnoc(m.calls, HookCall(OnStop, h.Success?));
  }

  lemma FiniKeepsDiscipline(m: Mod, onStop: Status, onFini: Status)
    requires Disciplined(m)
    ensures Disciplined(FiniSpec(m, onStop, onFini).mod)
  {
    hide Replay;
    var stop, fini := HookCall(OnStop, onStop.Success?), HookCall(OnFini, onFini.Success?);
    if m.state.Started? {
      ReplaySnoc(m.calls, stop);
      ReplaySnoc(m.calls + [stop], fini);
    } else {
      ReplaySnoc(m.calls, fini);
    }
  }

  predicate Opens(c: HookCall) { c.hook.OnInit? && c.ok }

  predicate Runs(c: HookCall) { c.hook.OnStart? && c.ok }

  /** Successful OnInits less OnFinis. */
  function OpenBrackets(calls: seq<HookCall>): int {
    if calls == [] then 0
    else
      var c := calls[|calls| - 1];
      OpenBrackets(calls[..|calls| - 1]) + (if Opens(c) then 1 else if c.hook.OnFini? then -1 else 0)
  }

  /** Between `i` and `j` no bracket opens or closes. */
  predicate Quiet(calls: seq<HookCall>, i: nat, j: nat)
    requires j <= |calls|
  {
    forall m :: i < m < j ==> !Opens(calls[m]) && !calls[m].hook.OnFini?
  }

  /** The successful OnInit at `i` is closed by the OnFini at `j`, and nothing comes between them. */
  predicate Pair(calls: seq<HookCall>, i: nat, j: nat) {
    i < j < |calls| && Opens(calls[i]) && calls[j].hook.OnFini? && Quiet(calls, i, j)
  }

  predicate StillOpen(calls: seq<HookCall>, i: nat) {
    i < |calls| && Opens(calls[i]) && Quiet(calls, i, |calls|)
  }

  lemma PairStays(calls: seq<HookCall>, c: HookCall, i: nat, j: nat)
    requires Pair(calls, i, j)
    ensures Pair(calls + [c], i, j)
  {
  }

  lemma StaysOpen(calls: seq<HookCall>, c: HookCall, i: nat)
    requires StillOpen(calls, i) && !Opens(c) && !c.hook.OnFini?
    ensures StillOpen(calls + [c], i)
  {
  }

  lemma OpenCloses(calls: seq<HookCall>, c: HookCall, i: nat)
    requires StillOpen(calls, i) && c.hook.OnFini?
    ensures Pair(calls + [c], i, |calls|)
  {
  }

  /** In a legal history hook brackets are paired: every successful OnInit but a last open one has its
      own OnFini after it, every OnFini closes such an OnInit, and nothing opens or closes between. */
  lemma {:induction false} LegalHistoryPairs(calls: seq<HookCall>)
    requires Replay(calls).Some?
    ensures forall i :: 0 <= i < |calls| && Opens(calls[i]) ==>
              (exists j :: Pair(calls, i, j)) || (StillOpen(calls, i) && !Replay(calls).value.Down?)
    ensures forall j :: 0 <= j < |calls| && calls[j].hook.OnFini? ==> exists i :: Pair(calls, i, j)
    ensures !Replay(calls).value.Down? ==> exists i :: StillOpen(calls, i)
  {
    hide Replay, Pair, StillOpen;
    if calls == [] {
      NothingReplayed();
    } else {
      var before, c := calls[..|calls| - 1], calls[|calls| - 1];
      assert calls == before + [c];
      ReplaySnoc(before, c);
      LegalHistoryPairs(before);
      forall i | 0 <= i < |calls| && Opens(calls[i])
        ensures (exists j :: Pair(calls, i, j)) || (StillOpen(calls, i) && !Replay(calls).value.Down?)
      {
        if i < |before| { OpenGoesOn(before, c, i); } else { LastOpen(before, c); }
      }
      forall j | 0 <= j < |calls| && calls[j].hook.OnFini? ensures exists i :: Pair(calls, i, j) {
        FiniHasPair(before, c, j);
      }
      if !Replay(calls).value.Down? { SomethingIsOpen(before, c); }
    }
  }

  lemma NothingReplayed()
    ensures Replay([]) == Some(Down)
  {
  }

  lemma FiniHasPair(before: seq<HookCall>, c: HookCall, j: nat)
    requires j <= |before| && (before + [c])[j].hook.OnFini?
    requires j < |before| ==> exists i :: Pair(before, i, j)
    requires j == |before| ==> exists i :: StillOpen(before, i)
    ensures exists i :: Pair(before + [c], i, j)
  {
    hide Pair, StillOpen;
    if j < |before| {
      var i :| Pair(before, i, j);
      PairStays(before, c, i, j);
    } else {
      var i :| StillOpen(before, i);
      OpenCloses(before, c, i);
    }
  }

  lemma SomethingIsOpen(before: seq<HookCall>, c: HookCall)
    requires Opens(c) || (!c.hook.OnFini? && exists i :: StillOpen(before, i))
    ensures exists i :: StillOpen(before + [c], i)
  {
    hide StillOpen;
    if Opens(c) {
      LastOpen(before, c);
    } else {
      var i :| StillOpen(before, i);
      StaysOpen(before, c, i);
    }
  }

  lemma LastOpen(before: seq<HookCall>, c: HookCall)
    requires Opens(c)
    ensures StillOpen(before + [c], |before|)
  {
  }

  /** One more call: a closed bracket stays closed, and an open one stays open or is closed by it. */
  lemma OpenGoesOn(before: seq<HookCall>, c: HookCall, i: nat)
    requires Replay(before).Some? && NextPhase(Replay(before).value, c).Some? && i < |before| && Opens(before[i])
    requires (exists j :: Pair(before, i, j)) || (StillOpen(before, i) && !Replay(before).value.Down?)
    ensures var after := NextPhase(Replay(before).value, c).value;
            (exists j :: Pair(before + [c], i, j)) || (StillOpen(before + [c], i) && !after.Down?)
  {
    if j :| Pair(before, i, j) {
      PairStays(before, c, i, j);
    } else if c.hook.OnFini? {
      OpenCloses(before, c, i);
    } else {
      StaysOpen(before, c, i);
    }
  }

  /** What a legal history means: every successful OnInit but a last open one has its own OnFini, every
      OnFini its own OnInit, nothing opens or closes between the two, and every successful OnStart but
      one that has only just run is followed by an OnStop. */
  lemma {:induction false} LegalHistoryBrackets(calls: seq<HookCall>)
    requires Replay(calls).Some?
    ensures OpenBrackets(calls) == if Replay(calls).value.Down? then 0 else 1
    ensures forall i :: 0 <= i < |calls| && Opens(calls[i]) ==>
              (exists j :: Pair(calls, i, j)) || (StillOpen(calls, i) && !Replay(calls).value.Down?)
    ensures forall j :: 0 <= j < |calls| && calls[j].hook.OnFini? ==> exists i :: Pair(calls, i, j)
    ensures forall i :: 0 <= i < |calls| && Runs(calls[i]) ==>
              (i == |calls| - 1 && Replay(calls).value.Running?) ||
              exists j :: i < j < |calls| && calls[j].hook.OnStop?
    ensures Replay(calls).value.Running? ==> calls != [] && Runs(calls[|calls| - 1])
  {
    hide Pair, StillOpen;
    LegalHistoryPairs(calls);
    if calls != [] {
      var before := calls[..|calls| - 1];
      LegalHistoryBrackets(before);
      forall i | 0 <= i < |calls| && Runs(calls[i])
        ensures (i == |calls| - 1 && Replay(calls).value.Running?) ||
                exists j :: i < j < |calls| && calls[j].hook.OnStop?
      {
        if i < |before| {
          assert before[i] == calls[i];
          if j :| i < j < |before| && before[j].hook.OnStop? {
            assert calls[j].hook.OnStop?;
          } else {
            assert calls[|calls| - 1].hook.OnStop?;
          }
        }
      }
    }
  }

  // ---- what each lifecycle call does, in one piece ----

  /** A running module has its OnStop called once, and is stopped if that succeeds; any other is left alone. */
  predicate StoppedAs(m: Mod, onStop: Status, m': Mod) {
    if m.state.Started?
    then m' == m.(calls := m.calls + [HookCall(OnStop, onStop.Success?)], state := if onStop.Success? then Stopped else Started)
    else m' == m
  }

  function StopError(m: Mod, onStop: Status): Status { if m.state.Started? then onStop else Failure(InvalidState) }

  /** A module is down afterwards; one that was initialised has had its OnFini called, and before that its
      OnStop if it was running. */
  predicate TornDownAs(m: Mod, onStop: Status, onFini: Status, m': Mod) {
    match m.state
    case Created => m' == m.(state := Finished, hasContext := false)
    case Inited => m' == m.(calls := m.calls + [HookCall(OnFini, onFini.Success?)], state := Finished, hasContext := false)
    case Started =>
      m' == m.(calls := m.calls + [HookCall(OnStop, onStop.Success?), HookCall(OnFini, onFini.Success?)], state := Finished,
               hasContext := false)
    case Stopped => m' == m.(calls := m.calls + [HookCall(OnFini, onFini.Success?)], state := Finished, hasContext := false)
    case Finished => m' == m
  }

  function TearDownError(m: Mod, onStop: Status, onFini: Status): Status {
    match m.state
    case Created => Success
    case Started => if onStop.Failure? then onStop else onFini
    case Finished => Failure(InvalidState)
    case _ => onFini
  }

  /** A new module, or one that is down, has its OnInit called once; a failure leaves it as it was, without
      a context. */
  predicate InitedAs(m: Mod, onInit: Status, m': Mod) {
    if m.state.Created? || m.state.Finished?
    then m' == m.(calls := m.calls + [HookCall(OnInit, onInit.Success?)], state := if onInit.Success? then Inited else m.state,
                  hasContext := onInit.Success?)
    else m' == m
  }

  function InitError(m: Mod, onInit: Status): Status {
    if m.state.Created? || m.state.Finished? then onInit else Failure(InvalidState)
  }

  predicate StartedAs(m: Mod, onStart: Status, m': Mod) {
    if m.state.Inited? || m.state.Stopped?
    then m' == m.(calls := m.calls + [HookCall(OnStart, onStart.Success?)], state := if onStart.Success? then Started else m.state)
    else m' == m
  }

  function StartError(m: Mod, onStart: Status): Status {
    if m.state.Inited? || m.state.Stopped? then onStart else Failure(InvalidState)
  }

  lemma OneModule(m: Mod, a: Status, b: Status)
    ensures StoppedAs(m, a, StopSpec(m, a).mod) && StopSpec(m, a).status == StopError(m, a)
    ensures TornDownAs(m, a, b, FiniSpec(m, a, b).mod) && FiniSpec(m, a, b).status == TearDownError(m, a, b)
    ensures InitedAs(m, a, InitSpec(m, a).mod) && InitSpec(m, a).status == InitError(m, a)
    ensures StartedAs(m, a, StartSpec(m, a).mod) && StartSpec(m, a).status == StartError(m, a)
  {
    assert m.calls + [HookCall(OnStop, a.Success?)] + [HookCall(OnFini, b.Success?)] ==
           m.calls + [HookCall(OnStop, a.Success?), HookCall(OnFini, b.Success?)];
  }

  /** The object the plugins derive from. */
  class ModuleBase {
    const isBus: bool
    const moduleType: string
    var moduleName: string
    var state: ModuleState
    var hasContext: bool
    ghost var calls: seq<HookCall>

    ghost function View(): Mod
      reads this
    {
      Mod(moduleName, isBus, state, hasContext, calls)
    }

    constructor (moduleType: string, isBus: bool)
      ensures View() == Mod("", isBus, Created, false, []) && this.moduleType == moduleType
      ensures Disciplined(View())
    {
      this.moduleType, this.isBus := moduleType, isBus;
      moduleName, state, hasContext, calls := "", Created, false, [];
    }

    method SetModuleName(name: string) returns (r: Status)
      modifies this`moduleName
      ensures name == "" ==> r == Failure(InvalidArgument)
      ensures name != "" && !state.Created? ==> r == Failure(InvalidState)
      ensures name != "" && state.Created? ==> r == Success
      ensures View() == if r.Success? then old(View()).(name := name) else old(View())
    {
      if name == "" { return Failure(InvalidArgument); }
      if state != Created { return Failure(InvalidState); }
      moduleName := name;
      return Success;
    }

    method Init(onInit: Status) returns (r: Status)
      modifies this`state, this`hasContext, this`calls
      ensures Change(View(), r) == InitSpec(old(View()), onInit)
      ensures InitedAs(old(View()), onInit, View()) && r == InitError(old(View()), onInit)
    {
      if !IsValidTransition(state, Inited) { return Failure(InvalidState); }
      hasContext := true;
      calls := calls + [HookCall(OnInit, onInit.Success?)];
      if onInit.Failure? {
        hasContext := false;
        return onInit;
      }
      state := Inited;
      return Success;
    }

    method Start(onStart: Status) returns (r: Status)
      modifies this`state, this`calls
      ensures Change(View(), r) == StartSpec(old(View()), onStart)
      ensures StartedAs(old(View()), onStart, View()) && r == StartError(old(View()), onStart)
    {
      if !IsValidTransition(state, Started) { return Failure(InvalidState); }
      calls := calls + [HookCall(OnStart, onStart.Success?)];
      if onStart.Failure? { return onStart; }
      state := Started;
      return Success;
    }

    method Stop(onStop: Status) returns (r: Status)
      modifies this`state, this`calls
      ensures Change(View(), r) == StopSpec(old(View()), onStop)
      ensures StoppedAs(old(View()), onStop, View()) && r == StopError(old(View()), onStop)
    {
      if !IsValidTransition(state, Stopped) { return Failure(InvalidState); }
      calls := calls + [HookCall(OnStop, onStop.Success?)];
      if onStop.Failure? { return onStop; }
      state := Stopped;
      return Success;
    }

    method Fini(onStop: Status, onFini: Status) returns (r: Status)
      modifies this`state, this`hasContext, this`calls
      ensures Change(View(), r) == FiniSpec(old(View()), onStop, onFini)
      ensures TornDownAs(old(View()), onStop, onFini, View()) && r == TearDownError(old(View()), onStop, onFini)
    {
      OneModule(View(), onStop, onFini);
      if !IsValidTransition(state, Finished) { return Failure(InvalidState); }
      r := Success;
      var cleanupState := state;
      if IsValidTransition(cleanupState, Stopped) {
        calls := calls + [HookCall(OnStop, onStop.Success?)];
        if onStop.Failure? { r := onStop; }
        cleanupState := Stopped;
      }
      if IsValidTransition(cleanupState, Started) {
        calls := calls + [HookCall(OnFini, onFini.Success?)];
        if r.Success? && onFini.Failure? { r := onFini; }
      }
      hasContext := false;
      state := Finished;
    }
  }
}
