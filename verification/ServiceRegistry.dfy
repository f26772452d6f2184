/** Which module provides which service: a map from service key to provider name to provider. */
module ServiceRegistry {
  import opened Prelude
  import opened ModuleLifecycle

  const BUS_KEY := "module_context.messaging.IMessageBusService"

  function LookupIn<T>(services: map<string, map<string, T>>, key: string, name: string): Result<T> {
    if key == "" || name == "" then Err(InvalidArgument)
    else if key in services && name in services[key] then Ok(services[key][name])
    else Err(NotFound)
  }

  /** The error of `LookupUnique`, or success when there is one provider and no other. */
  function UniqueStatus<T>(services: map<string, map<string, T>>, key: string): Status {
    if key == "" then Failure(InvalidArgument)
    else if key !in services || services[key] == map[] then Failure(NotFound)
    else if |services[key]| != 1 then Failure(InvalidState)
    else Success
  }

  function With<T>(services: map<string, map<string, T>>, key: string, name: string, provider: T): map<string, map<string, T>> {
    services[key := (if key in services then services[key] else map[])[name := provider]]
  }

  /** A unique lookup succeeds exactly when the named lookup succeeds for one name and no other. */
  lemma UniqueAgreesWithNamed<T>(services: map<string, map<string, T>>, key: string)
    requires key != "" && (key in services ==> "" !in services[key])
    ensures UniqueStatus(services, key).Success? <==>
              exists n :: LookupIn(services, key, n).Ok? && forall m :: LookupIn(services, key, m).Ok? ==> m == n
  {
    hide UniqueStatus, LookupIn;
    if UniqueStatus(services, key).Success? {
      var n := TheProvider(services, key);
      assert LookupIn(services, key, n).Ok? && forall m :: LookupIn(services, key, m).Ok? ==> m == n;
    }
    if n :| LookupIn(services, key, n).Ok? && forall m :: LookupIn(services, key, m).Ok? ==> m == n {
      SoleProvider(services, key, n);
    }
  }

  /** Why a lookup fails: an empty key or name, no provider of that name, no provider at all, or two. */
  lemma LookupErrors<T>(services: map<string, map<string, T>>, key: string, name: string)
    requires key in services ==> "" !in services[key]
    ensures key == "" || name == "" ==> LookupIn(services, key, name) == Err(InvalidArgument)
    ensures key != "" && name != "" && LookupIn(services, key, name).Err? ==> LookupIn(services, key, name) == Err(NotFound)
    ensures key == "" ==> UniqueStatus(services, key) == Failure(InvalidArgument)
    ensures key != "" ==> (UniqueStatus(services, key) == Failure(NotFound) <==>
                           forall n :: LookupIn(services, key, n).Err?)
    ensures key != "" ==> (UniqueStatus(services, key) == Failure(InvalidState) <==>
                           exists m, n :: m != n && LookupIn(services, key, m).Ok? && LookupIn(services, key, n).Ok?)
  {
    if key != "" && key in services && services[key] != map[] {
      if |services[key]| == 1 {
        var only := OnlyKey(services[key]);
        assert LookupIn(services, key, only).Ok?;
        assert forall m :: LookupIn(services, key, m).Ok? ==> m in services[key].Keys;
      } else {
        var m, n := TwoKeys(services[key]);
        assert LookupIn(services, key, m).Ok? && LookupIn(services, key, n).Ok?;
      }
    }
  }

  lemma TwoKeys<T>(m: map<string, T>) returns (a: string, b: string)
    requires m != map[] && |m| != 1
    ensures a in m && b in m && a != b
  {
    assert |m.Keys| == |m|;
    a :| a in m.Keys;
    assert |m.Keys - {a}| == |m.Keys| - 1;
    assert m.Keys - {a} != {};
    b :| b in m.Keys - {a};
  }

  lemma TheProvider<T>(services: map<string, map<string, T>>, key: string) returns (n: string)
    requires key != "" && (key in services ==> "" !in services[key]) && UniqueStatus(services, key).Success?
    ensures LookupIn(services, key, n).Ok? && forall m :: LookupIn(services, key, m).Ok? ==> m == n
  {
    n := OnlyKey(services[key]);
    assert forall m :: m in services[key] ==> m in services[key].Keys;
  }

  lemma SoleProvider<T>(services: map<string, map<string, T>>, key: string, n: string)
    requires key != "" && (key in services ==> "" !in services[key])
    requires LookupIn(services, key, n).Ok? && forall m :: LookupIn(services, key, m).Ok? ==> m == n
    ensures UniqueStatus(services, key).Success?
  {
    var providers := services[key];
    assert forall m :: m in providers ==> LookupIn(services, key, m).Ok?;
    assert providers.Keys == {n};
    assert |providers| == |providers.Keys|;
  }

  lemma OnlyKey<T>(m: map<string, T>) returns (n: string)
    requires |m| == 1
    ensures m.Keys == {n}
  {
    assert |m.Keys| == 1;
    n :| n in m.Keys;
    assert |m.Keys - {n}| == 0;
    assert m.Keys == (m.Keys - {n}) + {n};
  }

  class Registry {
    var servicesByKey: map<string, map<string, ModuleBase>>

    constructor ()
      ensures servicesByKey == map[]
    {
      servicesByKey := map[];
    }

    method Register(key: string, name: string, provider: ModuleBase?)
      modifies this
      ensures servicesByKey ==
                if key == "" || name == "" || provider == null then old(servicesByKey)
                else With(old(servicesByKey), key, name, provider)
    {
      if key == "" || name == "" || provider == null { return; }
      var services: map<string, ModuleBase> := map[];
      if key in servicesByKey { services := servicesByKey[key]; }
      servicesByKey := servicesByKey[key := services[name := provider]];
    }

    /** `dynamic_cast` decides; the bus is the only service the framework knows. */
    method RegisterKnownServices(name: string, provider: ModuleBase?)
      modifies this
      ensures servicesByKey ==
                if name == "" || provider == null || !provider.isBus then old(servicesByKey)
                else With(old(servicesByKey), BUS_KEY, name, provider)
    {
      if provider == null { return; }
      if provider.isBus { Register(BUS_KEY, name, provider); }
    }

    method Lookup(key: string, name: string) returns (r: Result<ModuleBase>)
      ensures r == LookupIn(servicesByKey, key, name)
    {
      if key == "" || name == "" { return Err(InvalidArgument); }
      if key !in servicesByKey { return Err(NotFound); }
      if name !in servicesByKey[key] { return Err(NotFound); }
      return Ok(servicesByKey[key][name]);
    }

    method LookupUnique(key: string) returns (r: Result<ModuleBase>)
      ensures r.Ok? <==> UniqueStatus(servicesByKey, key).Success?
      ensures r.Err? ==> UniqueStatus(servicesByKey, key) == Failure(r.error)
      ensures r.Ok? ==> exists n :: servicesByKey[key] == map[n := r.value]
    {
      if key == "" { return Err(InvalidArgument); }
      if key !in servicesByKey || servicesByKey[key] == map[] { return Err(NotFound); }
      if |servicesByKey[key]| != 1 { return Err(InvalidState); }
      ghost var only := OnlyKey(servicesByKey[key]);
      var n :| n in servicesByKey[key];
      assert servicesByKey[key] == map[n := servicesByKey[key][n]];
      return Ok(servicesByKey[key][n]);
    }

    method Clear()
      modifies this
      ensures servicesByKey == map[]
    {
      servicesByKey := map[];
    }
  }
}
