/** The module manager: loading, the four lifecycle passes, and the lookups, over four containers
    that have to agree. */
module ModuleManager {
  import opened Prelude
  import opened ConfigValues
  import opened KeyedLists
  import opened ModuleLifecycle
  import opened ModuleFleet
  import opened ServiceRegistry

  const SCHEMA_VERSION := 2

  datatype ModuleConfigSpec = ModuleConfigSpec(name: string, moduleType: string, libraryPath: string, config: ConfigValue)

  /** What a plugin library yields once it is open. */
  datatype Plugin = Plugin(moduleType: string, isBus: bool)

  /** The answers of the plugin loader, by library path. */
  type Loader = string -> Result<Plugin>

  // ---- the configuration file ----

  function ParseEntry(value: ConfigValue): Result<ModuleConfigSpec> {
    var name := RequiredString(value, "name");
    var moduleType := RequiredString(value, "type");
    var path := RequiredString(value, "library_path");
    var config := OptionalObject(value, "config");
    if name.Err? || moduleType.Err? || path.Err? || config.Err? then Err(ParseError)
    else Ok(ModuleConfigSpec(name.value, moduleType.value, path.value, config.value))
  }

  function EntryName(e: ModuleConfigSpec): string { e.name }

  /** `file` is the JSON tree, or the error of reading it. */
  function ReadConfig(file: Result<ConfigValue>): Result<seq<ModuleConfigSpec>> {
    if file.Err? then Err(file.error)
    else if !Has(file.value, "schema_version") || !file.value.fields["schema_version"].Int64? then Err(ParseError)
    else if file.value.fields["schema_version"].number != SCHEMA_VERSION then Err(VersionMismatch)
    else if !Has(file.value, "modules") || !file.value.fields["modules"].Arr? then Err(ParseError)
    else CollectUnique(file.value.fields["modules"].items, ParseEntry, EntryName)
  }

  method ReadModuleConfig(file: Result<ConfigValue>) returns (r: Result<seq<ModuleConfigSpec>>)
    ensures r == ReadConfig(file)
    ensures r.Ok? ==> UniqueKeys(r.value, EntryName) && forall e :: e in r.value ==> e.name != ""
  {
    if file.Err? { return Err(file.error); }
    var root := file.value;
    if !Has(root, "schema_version") || !root.fields["schema_version"].Int64? { return Err(ParseError); }
    if root.fields["schema_version"].number != SCHEMA_VERSION { return Err(VersionMismatch); }
    if !Has(root, "modules") || !root.fields["modules"].Arr? { return Err(ParseError); }
    var values := root.fields["modules"].items;
    var status, specs := ParseUniqueArray(values, ParseEntry, EntryName);
    AcceptedIffUnique(values, ParseEntry, EntryName);
    if status.Failure? { return Err(status.error); }
    return Ok(specs);
  }

  // ---- staging ----

  function StageOne(e: ModuleConfigSpec, open: Loader): Status {
    if open(e.libraryPath).Err? then Failure(open(e.libraryPath).error)
    else if e.name == "" then Failure(CreateFailed)
    else
      var t := open(e.libraryPath).value.moduleType;
      if t == "" || t != e.moduleType then Failure(InvalidState) else Success
  }

  function StageAll(entries: seq<ModuleConfigSpec>, open: Loader): Status {
    if entries == [] then Success
    else
      var before := StageAll(entries[..|entries| - 1], open);
      if before.Failure? then before else StageOne(entries[|entries| - 1], open)
  }

  lemma {:induction false} StageErrorPersists(entries: seq<ModuleConfigSpec>, open: Loader, n: nat)
    requires n <= |entries| && StageAll(entries[..n], open).Failure?
    ensures StageAll(entries, open) == StageAll(entries[..n], open)
    decreases |entries| - n
  {
    if n == |entries| {
      assert entries[..n] == entries;
    } else {
      assert entries[..n + 1][..n] == entries[..n];
      StageErrorPersists(entries, open, n + 1);
    }
  }

  /** Why a batch is refused, if it is. */
  function LoadStatus(path: string, file: Result<ConfigValue>, loaded: set<string>, open: Loader): Status {
    if path == "" then Failure(InvalidArgument)
    else if ReadConfig(file).Err? then Failure(ReadConfig(file).error)
    else if exists e :: e in ReadConfig(file).value && e.name in loaded then Failure(AlreadyExists)
    else StageAll(ReadConfig(file).value, open)
  }

  function NewMod(name: string, plugin: Plugin): Mod { Mod(name, plugin.isBus, Created, false, []) }

  function NewModOf(e: ModuleConfigSpec, open: Loader): (m: Mod)
    ensures m.name == e.name && Fresh(m)
  {
    NewMod(e.name, if open(e.libraryPath).Ok? then open(e.libraryPath).value else Plugin("", false))
  }

  ghost function NewMods(entries: seq<ModuleConfigSpec>, open: Loader): (mods: seq<Mod>)
    ensures |mods| == |entries| && forall i :: 0 <= i < |entries| ==> mods[i] == NewModOf(entries[i], open)
  {
    seq(|entries|, i requires 0 <= i < |entries| => NewModOf(entries[i], open))
  }

  // ---- the registry that belongs to a set of modules ----

  ghost function BusServices(m: map<string, ModuleBase>): map<string, map<string, ModuleBase>> {
    var buses := map n | n in m && m[n].isBus :: m[n];
    if buses == map[] then map[] else map[BUS_KEY := buses]
  }

  lemma BusServicesStore(m: map<string, ModuleBase>, name: string, x: ModuleBase)
    requires name !in m
    ensures BusServices(m[name := x]) == if x.isBus then With(BusServices(m), BUS_KEY, name, x) else BusServices(m)
  {
    var buses := map n | n in m && m[n].isBus :: m[n];
    var m' := m[name := x];
    var buses' := map n | n in m' && m'[n].isBus :: m'[n];
    if x.isBus {
      assert buses' == buses[name := x];
      assert name in buses';
    } else {
      assert buses' == buses;
    }
  }

  lemma NamedBus(m: map<string, ModuleBase>, key: string, name: string)
    requires "" !in m
    ensures LookupIn(BusServices(m), key, name).Ok? <==> key == BUS_KEY && name in m && m[name].isBus
    ensures LookupIn(BusServices(m), key, name).Ok? ==> LookupIn(BusServices(m), key, name).value == m[name]
  {
    var buses := map n | n in m && m[n].isBus :: m[n];
    assert name in buses <==> name in m && m[name].isBus;
  }

  /** The names a map holds for the bus service. */
  ghost function BusNames(m: map<string, ModuleBase>): set<string> { set n | n in m && m[n].isBus }

  lemma UniqueBus(m: map<string, ModuleBase>, key: string)
    ensures UniqueStatus(BusServices(m), key).Success? <==> key == BUS_KEY && |BusNames(m)| == 1
    ensures UniqueStatus(BusServices(m), key).Success? ==>
              forall n, v :: BusServices(m)[key] == map[n := v] ==> BusNames(m) == {n} && m[n] == v
  {
    var buses := map n | n in m && m[n].isBus :: m[n];
    assert buses.Keys == BusNames(m);
    assert |buses| == |buses.Keys|;
    if UniqueStatus(BusServices(m), key).Success? {
      forall n, v | buses == map[n := v] ensures BusNames(m) == {n} && m[n] == v {
        assert buses.Keys == {n} && buses[n] == v;
      }
    }
  }

  /** The names a plain scan of the load order finds for the bus service. */
  function Scan(mods: seq<Mod>): seq<string> {
    if mods == [] then []
    else Scan(mods[..|mods| - 1]) + if mods[|mods| - 1].isBus then [mods[|mods| - 1].name] else []
  }

  ghost predicate UniqueNames(mods: seq<Mod>) {
    forall i, j :: 0 <= i < j < |mods| ==> mods[i].name != mods[j].name
  }

  lemma {:induction false} ScanFinds(mods: seq<Mod>)
    requires UniqueNames(mods)
    ensures forall n :: n in Scan(mods) <==> exists i :: 0 <= i < |mods| && mods[i].isBus && mods[i].name == n
    ensures Distinct(Scan(mods))
  {
    if mods != [] {
      var before, last := mods[..|mods| - 1], mods[|mods| - 1];
      ScanFinds(before);
      forall n ensures n in Scan(mods) <==> exists i :: 0 <= i < |mods| && mods[i].isBus && mods[i].name == n {
        if n in Scan(before) {
          var i :| 0 <= i < |before| && before[i].isBus && before[i].name == n;
          assert mods[i] == before[i];
        }
        if i :| 0 <= i < |mods| && mods[i].isBus && mods[i].name == n {
          if i < |before| { assert before[i] == mods[i]; }
        }
      }
      assert last.name !in Scan(before) by {
        assert forall i :: 0 <= i < |before| ==> mods[i] == before[i] && mods[i].name != last.name;
      }
    }
  }

  lemma {:induction false} DistinctSize(s: seq<string>, keys: set<string>)
    requires Distinct(s) && forall n :: n in s <==> n in keys
    ensures |s| == |keys|
  {
    if s == [] {
      assert keys == {};
    } else {
      var n := s[|s| - 1];
      var before := s[..|s| - 1];
      assert s == before + [n];
      DistinctSize(before, keys - {n});
    }
  }

  // ---- the modules in load order ----

  ghost function Objects(order: seq<string>, m: map<string, ModuleBase>): (objs: seq<ModuleBase>)
    requires forall n :: n in order ==> n in m
    ensures |objs| == |order| && forall i :: 0 <= i < |order| ==> objs[i] == m[order[i]]
  {
    seq(|order|, i requires 0 <= i < |order| && order[i] in m => m[order[i]])
  }

  ghost function Views(objs: seq<ModuleBase>): (mods: seq<Mod>)
    reads objs
    ensures |mods| == |objs| && forall i :: 0 <= i < |objs| ==> mods[i] == objs[i].View()
  {
    if objs == [] then [] else Views(objs[..|objs| - 1]) + [objs[|objs| - 1].View()]
  }

  lemma ViewsSnoc(objs: seq<ModuleBase>, x: ModuleBase)
    ensures Views(objs + [x]) == Views(objs) + [x.View()]
  {
    assert (objs + [x])[..|objs|] == objs;
  }

  lemma ObjectsStore(order: seq<string>, m: map<string, ModuleBase>, name: string, x: ModuleBase)
    requires (forall n :: n in order ==> n in m) && name !in m
    ensures Objects(order + [name], m[name := x]) == Objects(order, m) + [x]
  {
  }

  class Manager {
    var modulesByName: map<string, ModuleBase>
    var configsByName: map<string, ConfigValue>
    var moduleOrder: seq<string>
    const serviceRegistry: Registry
    ghost var log: seq<Entry>
    ghost var lastTeardown: Fleet

    ghost predicate Indexed()
      reads this`modulesByName, this`moduleOrder, modulesByName.Values
    {
      && Distinct(moduleOrder)
      && (forall n :: n in modulesByName <==> n in moduleOrder)
      && (forall n :: n in modulesByName ==> n != "" && modulesByName[n].moduleName == n)
      && (forall n, n' :: n in modulesByName && n' in modulesByName && n != n' ==> modulesByName[n] != modulesByName[n'])
    }

    /** The four containers name the same modules. */
    ghost predicate Agree()
      reads this, serviceRegistry, modulesByName.Values
      ensures Agree() ==> Indexed() && configsByName.Keys == modulesByName.Keys
    {
      && Indexed()
      && configsByName.Keys == modulesByName.Keys
      && serviceRegistry.servicesByKey == BusServices(modulesByName)
    }

    ghost function Mods(): seq<Mod>
      requires Indexed()
      reads this`modulesByName, this`moduleOrder, modulesByName.Values
    {
      Views(Objects(moduleOrder, modulesByName))
    }

    ghost function CurrentFleet(): Fleet
      requires Indexed()
      reads this, modulesByName.Values
    {
      Fleet(Mods(), log)
    }

    ghost predicate Valid()
      reads this, serviceRegistry, modulesByName.Values
      ensures Valid() ==> Agree() && Indexed()
    {
      Agree() && Good(CurrentFleet())
    }

    constructor ()
      ensures Valid() && fresh(serviceRegistry) && moduleOrder == [] && CurrentFleet() == EMPTY
    {
      modulesByName, configsByName, moduleOrder, log := map[], map[], [], [];
      serviceRegistry := new Registry();
    }

    // ---- loading ----

    method StageModules(entries: seq<ModuleConfigSpec>, open: Loader) returns (r: Status, staged: seq<ModuleBase>)
      ensures r == StageAll(entries, open)
      ensures r.Success? ==> |staged| == |entries| && Distinct(staged)
      ensures r.Success? ==>
                forall i :: 0 <= i < |staged| ==> fresh(staged[i]) && staged[i].View() == NewMods(entries, open)[i]
    {
      hide StageAll;
      StageNone(entries, open);
      staged := [];
      var index := 0;
      while index < |entries|
        invariant 0 <= index <= |entries| && |staged| == index && Distinct(staged)
        invariant StageAll(entries[..index], open).Success?
        invariant forall i :: 0 <= i < index ==> fresh(staged[i]) && staged[i].View() == NewModOf(entries[i], open)
      {
        var entry := entries[index];
        StageNext(entries, open, index);
        var created := open(entry.libraryPath);
        if created.Err? {
          StageErrorPersists(entries, open, index + 1);
          return Failure(created.error), staged;
        }
        var m := new ModuleBase(created.value.moduleType, created.value.isBus);
        var named := m.SetModuleName(entry.name);
        if named.Failure? {
          StageErrorPersists(entries, open, index + 1);
          return Failure(CreateFailed), staged;
        }
        if m.moduleType == "" || m.moduleType != entry.moduleType {
          StageErrorPersists(entries, open, index + 1);
          return Failure(InvalidState), staged;
        }
        staged := staged + [m];
        index := index + 1;
      }
      assert entries[..index] == entries;
      r := Success;
    }

    lemma StageNone(entries: seq<ModuleConfigSpec>, open: Loader)
      ensures StageAll(entries[..0], open).Success?
    {
    }

    lemma StageNext(entries: seq<ModuleConfigSpec>, open: Loader, index: nat)
      requires index < |entries| && StageAll(entries[..index], open).Success?
      ensures StageAll(entries[..index + 1], open) == StageOne(entries[index], open)
    {
      assert entries[..index + 1][..index] == entries[..index];
    }

    method StoreLoadedModule(name: string, m: ModuleBase)
      requires Indexed() && serviceRegistry.servicesByKey == BusServices(modulesByName)
      requires name != "" && name !in modulesByName && m !in modulesByName.Values && m.moduleName == name
      modifies this`modulesByName, this`moduleOrder, serviceRegistry
      ensures Indexed() && serviceRegistry.servicesByKey == BusServices(modulesByName)
      ensures modulesByName == old(modulesByName)[name := m]
      ensures moduleOrder == old(moduleOrder) + [name]
      ensures Mods() == old(Mods()) + [m.View()]
    {
      hide Views, BusServices;
      BusServicesStore(modulesByName, name, m);
      ObjectsStore(moduleOrder, modulesByName, name, m);
      ghost var objs := Objects(moduleOrder, modulesByName);
      modulesByName := modulesByName[name := m];
      moduleOrder := moduleOrder + [name];
      serviceRegistry.RegisterKnownServices(name, m);
      ViewsSnoc(objs, m);
    }

    /** All or nothing: a batch is stored completely, or nothing changes. */
    method LoadModules(path: string, file: Result<ConfigValue>, open: Loader) returns (r: Status)
      requires Valid()
      modifies this, serviceRegistry
      ensures Valid() && r == LoadStatus(path, file, old(modulesByName).Keys, open)
      ensures r.Failure? ==>
                unchanged(this) && unchanged(serviceRegistry) && CurrentFleet() == old(CurrentFleet())
      ensures r.Success? ==>
                && CurrentFleet() == Perform(old(CurrentFleet()), Load(NewMods(ReadConfig(file).value, open))).fleet
                && Permitted(Load(NewMods(ReadConfig(file).value, open)))
                && KeptEntries()
                && (forall e :: e in ReadConfig(file).value ==> e.name in configsByName && configsByName[e.name] == e.config)
    {
      hide Agree, Indexed, LoadStatus, KeptEntries, Shaped, Recorded, Views, Objects;
      r := LoadBatch(path, file, open);
      if r.Success? {
        LoadKeepsGood(old(CurrentFleet()), NewMods(ReadConfig(file).value, open));
        assert CurrentFleet() == Fleet(old(CurrentFleet()).mods + NewMods(ReadConfig(file).value, open), log);
      } else {
        assert CurrentFleet() == old(CurrentFleet());
      }
    }

    method AnyLoaded(entries: seq<ModuleConfigSpec>) returns (loaded: bool)
      ensures loaded <==> exists e :: e in entries && e.name in modulesByName
    {
      var index := 0;
      while index < |entries|
        invariant 0 <= index <= |entries|
        invariant forall i :: 0 <= i < index ==> entries[i].name !in modulesByName
      {
        if entries[index].name in modulesByName {
          assert entries[index] in entries;
          return true;
        }
        index := index + 1;
      }
      loaded := false;
    }

    method LoadBatch(path: string, file: Result<ConfigValue>, open: Loader) returns (r: Status)
      requires Agree()
      modifies this`modulesByName, this`moduleOrder, this`configsByName, serviceRegistry
      ensures Agree() && r == LoadStatus(path, file, old(modulesByName).Keys, open)
      ensures r.Failure? ==> unchanged(this) && unchanged(serviceRegistry) && Mods() == old(Mods())
      ensures r.Success? ==>
                && ReadConfig(file).Ok?
                && Mods() == old(Mods()) + NewMods(ReadConfig(file).value, open)
                && KeptEntries()
                && (forall e :: e in ReadConfig(file).value ==> e.name in configsByName && configsByName[e.name] == e.config)
    {
      hide Agree, Indexed, Views, Objects, BusServices, StageAll, ReadConfig, NewMods, UniqueKeys, Distinct;
      if path == "" { return Failure(InvalidArgument); }
      var parsed := ReadModuleConfig(file);
      if parsed.Err? { return Failure(parsed.error); }
      var entries := parsed.value;
      var loaded := AnyLoaded(entries);
      if loaded { return Failure(AlreadyExists); }
      var staged;
      r, staged := StageModules(entries, open);
      if r.Success? {
        ghost var mods := NewMods(entries, open);
        assert forall i :: 0 <= i < |entries| ==> entries[i] in entries;
        CommitStaged(entries, mods, staged);
      }
    }

    /** Stores one module and its configuration. */
    method Store(name: string, m: ModuleBase, config: ConfigValue)
      requires Agree() && name != "" && name !in modulesByName && m !in modulesByName.Values && m.moduleName == name
      modifies this`modulesByName, this`moduleOrder, this`configsByName, serviceRegistry
      ensures Agree() && Mods() == old(Mods()) + [m.View()]
      ensures modulesByName == old(modulesByName)[name := m] && configsByName == old(configsByName)[name := config]
    {
      hide Indexed, Views, Objects, BusServices;
      StoreLoadedModule(name, m);
      configsByName := configsByName[name := config];
    }

    /** The staged modules that are not stored yet clash with nothing. */
    ghost predicate Storable(entries: seq<ModuleConfigSpec>, staged: seq<ModuleBase>, from: nat)
      reads this
    {
      && |staged| == |entries|
      && (forall i :: from <= i < |entries| ==>
            entries[i].name != "" && entries[i].name !in modulesByName && staged[i] !in modulesByName.Values)
    }

    /** Everything that was loaded before is still there. */
    twostate predicate KeptEntries()
      reads this
    {
      forall n :: n in old(modulesByName) ==>
        n in modulesByName && modulesByName[n] == old(modulesByName)[n] &&
        (n in configsByName && n in old(configsByName) ==> configsByName[n] == old(configsByName)[n])
    }

    method CommitStaged(entries: seq<ModuleConfigSpec>, ghost mods: seq<Mod>, staged: seq<ModuleBase>)
      requires Agree() && UniqueKeys(entries, EntryName) && Distinct(staged) && Storable(entries, staged, 0)
      requires |mods| == |staged| && forall i :: 0 <= i < |staged| ==> staged[i].View() == mods[i] && mods[i].name == entries[i].name
      modifies this`modulesByName, this`moduleOrder, this`configsByName, serviceRegistry
      ensures Agree() && Mods() == old(Mods()) + mods && KeptEntries()
      ensures forall i :: 0 <= i < |entries| ==> entries[i].name in configsByName && configsByName[entries[i].name] == entries[i].config
    {
      hide Agree, Indexed, Views, Objects, UniqueKeys, Distinct;
      DistinctObjects(staged);
      var index := 0;
      while index < |staged|
        invariant 0 <= index <= |staged|
        invariant Agree() && Mods() == old(Mods()) + mods[..index] && KeptEntries()
        invariant Storable(entries, staged, index)
        invariant forall i :: 0 <= i < index ==> entries[i].name in configsByName && configsByName[entries[i].name] == entries[i].config
      {
        OthersDiffer(entries, index);
        assert staged[index].View() == mods[index];
        Store(entries[index].name, staged[index], entries[index].config);
        assert mods[..index + 1] == mods[..index] + [mods[index]];
        index := index + 1;
      }
      assert mods[..index] == mods;
    }

    lemma OthersDiffer(entries: seq<ModuleConfigSpec>, index: nat)
      requires UniqueKeys(entries, EntryName) && index < |entries|
      ensures forall i :: 0 <= i < |entries| && i != index ==> entries[i].name != entries[index].name
    {
      assert forall i :: 0 <= i < |entries| ==> EntryName(entries[i]) == entries[i].name;
    }

    lemma DistinctObjects(staged: seq<ModuleBase>)
      requires Distinct(staged)
      ensures forall i, j :: 0 <= i < |staged| && 0 <= j < |staged| && i != j ==> staged[i] != staged[j]
    {
    }

    method LoadModule(name: string, path: string, open: Loader) returns (r: Status)
      requires Valid()
      modifies this, serviceRegistry
      ensures Valid()
      ensures r == if name == "" || path == "" then Failure(InvalidArgument)
                   else if name in old(modulesByName) then Failure(AlreadyExists)
                   else if open(path).Err? then Failure(open(path).error) else Success
      ensures r.Failure? ==> unchanged(this) && unchanged(serviceRegistry) && CurrentFleet() == old(CurrentFleet())
      ensures r.Success? ==>
                && CurrentFleet() == Perform(old(CurrentFleet()), Load([NewMod(name, open(path).value)])).fleet
                && configsByName == old(configsByName)[name := Obj(map[])]
    {
      if name == "" || path == "" { return Failure(InvalidArgument); }
      if name in modulesByName { return Failure(AlreadyExists); }
      var created := open(path);
      if created.Err? { return Failure(created.error); }
      LoadKeepsGood(CurrentFleet(), [NewMod(name, created.value)]);
      CreateAndStore(name, created.value);
      r := Success;
    }

    method CreateAndStore(name: string, plugin: Plugin)
      requires Agree() && name != "" && name !in modulesByName
      modifies this`modulesByName, this`moduleOrder, this`configsByName, serviceRegistry
      ensures Agree() && Mods() == old(Mods()) + [NewMod(name, plugin)]
      ensures configsByName == old(configsByName)[name := Obj(map[])]
    {
      hide Agree, Indexed, Views, Objects;
      var m := new ModuleBase(plugin.moduleType, plugin.isBus);
      var named := m.SetModuleName(name);
      Store(name, m, Obj(map[]));
    }

    // ---- the lifecycle passes ----

    /** The modules as objects, all different. */
    lemma ObjectsDiffer() returns (objs: seq<ModuleBase>)
      requires Indexed()
      ensures objs == Objects(moduleOrder, modulesByName) && Distinct(objs) && Listed(objs, Mods())
      ensures forall x :: x in objs ==> x in modulesByName.Values
    {
      objs := Objects(moduleOrder, modulesByName);
      forall i, j | 0 <= i < j < |objs| ensures objs[i] != objs[j] {
        assert moduleOrder[i] in modulesByName && moduleOrder[j] in modulesByName && moduleOrder[i] != moduleOrder[j];
      }
    }

    /** The modules' names and the containers are as they were. */
    lemma StillIndexed(objs: seq<ModuleBase>)
      requires forall n :: n in modulesByName <==> n in moduleOrder
      requires objs == Objects(moduleOrder, modulesByName) && Distinct(moduleOrder) && Distinct(objs)
      requires forall i :: 0 <= i < |objs| ==> objs[i].moduleName == moduleOrder[i] && moduleOrder[i] != ""
      ensures Indexed()
    {
      forall n | n in modulesByName ensures n != "" && modulesByName[n].moduleName == n {
        var i :| 0 <= i < |moduleOrder| && moduleOrder[i] == n;
        assert objs[i] == modulesByName[n];
      }
      forall n, n' | n in modulesByName && n' in modulesByName && n != n' ensures modulesByName[n] != modulesByName[n'] {
        var i :| 0 <= i < |moduleOrder| && moduleOrder[i] == n;
        var j :| 0 <= j < |moduleOrder| && moduleOrder[j] == n';
        assert objs[i] == modulesByName[n] && objs[j] == modulesByName[n'];
      }
    }

    /** `mods` is what the objects in load order look like. */
    ghost predicate Listed(objs: seq<ModuleBase>, mods: seq<Mod>)
      reads this`moduleOrder, this`modulesByName, objs
    {
      && (forall n :: n in moduleOrder ==> n in modulesByName)
      && objs == Objects(moduleOrder, modulesByName) && Distinct(objs) && |mods| == |objs|
      && forall i :: 0 <= i < |objs| ==> objs[i].View() == mods[i] && mods[i].name == moduleOrder[i]
    }

    lemma Lengths(objs: seq<ModuleBase>, mods: seq<Mod>)
      requires Listed(objs, mods)
      ensures |mods| == |objs| == |moduleOrder|
    {
    }

    lemma Look(objs: seq<ModuleBase>, mods: seq<Mod>, k: nat)
      requires Listed(objs, mods) && k < |moduleOrder|
      ensures |mods| == |objs| == |moduleOrder| && moduleOrder[k] in modulesByName
      ensures modulesByName[moduleOrder[k]] == objs[k] && objs[k].View() == mods[k]
    {
    }

    lemma Settle(objs: seq<ModuleBase>, mods: seq<Mod>)
      requires forall n :: n in modulesByName <==> n in moduleOrder
      requires Distinct(moduleOrder) && forall n :: n in moduleOrder ==> n != ""
      requires Listed(objs, mods)
      ensures Indexed() && Mods() == mods
    {
      forall i | 0 <= i < |objs| ensures objs[i].moduleName == moduleOrder[i] && moduleOrder[i] != "" {
        assert objs[i].View() == mods[i] && moduleOrder[i] in moduleOrder;
      }
      StillIndexed(objs);
      assert Views(objs) == mods;
    }

    method Init(hooks: Hooks) returns (r: Status)
      requires Valid()
      modifies modulesByName.Values, this`log
      ensures Valid() && Pass(CurrentFleet(), r) == Perform(old(CurrentFleet()), InitAll(hooks))
    {
      InitKeepsGood(CurrentFleet(), 0, hooks);
      ghost var objs := ObjectsDiffer();
      ghost var mods := Mods();
      r, mods := InitLoop(objs, mods, hooks);
      Settle(objs, mods);
    }

    method InitAt(ghost objs: seq<ModuleBase>, ghost was: seq<Mod>, index: nat, hooks: Hooks)
      returns (status: Status, ghost mods: seq<Mod>)
      requires Listed(objs, was) && index < |moduleOrder| == |was|
      modifies objs, this`log
      ensures Listed(objs, mods) && |mods| == |was|
      ensures var c := InitSpec(was[index], hooks(was[index].name, OnInit));
              was[index].calls <= c.mod.calls && status == c.status && Fleet(mods, log) == Put(Fleet(was, old(log)), index, c.mod)
    {
      hide InitSpec;
      Look(objs, was, index);
      var m := modulesByName[moduleOrder[index]];
      InitNext(Fleet(was, log), index, hooks);
      status := m.Init(hooks(m.moduleName, OnInit));
      forall i | 0 <= i < |objs| && i != index ensures objs[i].View() == was[i] {
        assert objs[i] != m;
      }
      ghost var next := Put(Fleet(was, log), index, m.View());
      mods, log := next.mods, next.log;
    }

    method InitLoop(ghost objs: seq<ModuleBase>, ghost was: seq<Mod>, hooks: Hooks) returns (r: Status, ghost mods: seq<Mod>)
      requires Listed(objs, was)
      modifies objs, this`log
      ensures Listed(objs, mods)
      ensures Pass(Fleet(mods, log), r) == InitFrom(Fleet(was, old(log)), 0, hooks)
    {
      hide InitFrom, InitSpec, Listed;
      mods := was;
      Lengths(objs, mods);
      var index := 0;
      while index < |moduleOrder|
        invariant 0 <= index <= |moduleOrder| == |mods| && Listed(objs, mods)
        invariant InitFrom(Fleet(mods, log), index, hooks) == InitFrom(Fleet(was, old(log)), 0, hooks)
      {
        InitNext(Fleet(mods, log), index, hooks);
        var status;
        status, mods := InitAt(objs, mods, index, hooks);
        if status.Failure? { return status, mods; }
        index := index + 1;
      }
      InitDone(Fleet(mods, log), hooks);
      r := Success;
    }

    method Start(hooks: Hooks) returns (r: Status)
      requires Valid()
      modifies modulesByName.Values, this`log
      ensures Valid() && Pass(CurrentFleet(), r) == Perform(old(CurrentFleet()), StartAll(hooks))
    {
      StartKeepsGood(CurrentFleet(), 0, hooks);
      ghost var objs := ObjectsDiffer();
      ghost var mods := Mods();
      r, mods := StartLoop(objs, mods, hooks);
      Settle(objs, mods);
    }

    method StartAt(ghost objs: seq<ModuleBase>, ghost was: seq<Mod>, index: nat, hooks: Hooks)
      returns (status: Status, ghost mods: seq<Mod>)
      requires Listed(objs, was) && index < |moduleOrder| == |was|
      modifies objs, this`log
      ensures Listed(objs, mods) && |mods| == |was|
      ensures var c := StartSpec(was[index], hooks(was[index].name, OnStart));
              was[index].calls <= c.mod.calls && status == c.status && Fleet(mods, log) == Put(Fleet(was, old(log)), index, c.mod)
    {
      hide StartSpec;
      Look(objs, was, index);
      var m := modulesByName[moduleOrder[index]];
      StartNext(Fleet(was, log), index, hooks);
      status := m.Start(hooks(m.moduleName, OnStart));
      forall i | 0 <= i < |objs| && i != index ensures objs[i].View() == was[i] {
        assert objs[i] != m;
      }
      ghost var next := Put(Fleet(was, log), index, m.View());
      mods, log := next.mods, next.log;
    }

    method StartLoop(ghost objs: seq<ModuleBase>, ghost was: seq<Mod>, hooks: Hooks) returns (r: Status, ghost mods: seq<Mod>)
      requires Listed(objs, was)
      modifies objs, this`log
      ensures Listed(objs, mods)
      ensures Pass(Fleet(mods, log), r) == StartFrom(Fleet(was, old(log)), 0, hooks)
    {
      hide StartFrom, StartSpec, Listed;
      mods := was;
      Lengths(objs, mods);
      var index := 0;
      while index < |moduleOrder|
        invariant 0 <= index <= |moduleOrder| == |mods| && Listed(objs, mods)
        invariant StartFrom(Fleet(mods, log), index, hooks) == StartFrom(Fleet(was, old(log)), 0, hooks)
      {
        StartNext(Fleet(mods, log), index, hooks);
        var status;
        status, mods := StartAt(objs, mods, index, hooks);
        if status.Failure? { return status, mods; }
        index := index + 1;
      }
      StartDone(Fleet(mods, log), hooks);
      r := Success;
    }

    method Stop(hooks: Hooks) returns (r: Status)
      requires Valid()
      modifies modulesByName.Values, this`log
      ensures Valid() && Pass(CurrentFleet(), r) == Perform(old(CurrentFleet()), StopAll(hooks))
    {
      StopKeepsGood(CurrentFleet(), |moduleOrder|, hooks, Success);
      ghost var objs := ObjectsDiffer();
      ghost var mods := Mods();
      r, mods := StopLoop(objs, mods, hooks);
      Settle(objs, mods);
    }

    method StopAt(ghost objs: seq<ModuleBase>, ghost was: seq<Mod>, index: nat, hooks: Hooks)
      returns (status: Status, ghost mods: seq<Mod>)
      requires Listed(objs, was) && index < |moduleOrder| == |was|
      modifies objs, this`log
      ensures Listed(objs, mods) && |mods| == |was|
      ensures var c := StopSpec(was[index], hooks(was[index].name, OnStop));
              was[index].calls <= c.mod.calls && status == c.status && Fleet(mods, log) == Put(Fleet(was, old(log)), index, c.mod)
    {
      hide StopSpec;
      Look(objs, was, index);
      var m := modulesByName[moduleOrder[index]];
      StopNext(Fleet(was, log), index, hooks, Success);
      status := m.Stop(hooks(m.moduleName, OnStop));
      forall i | 0 <= i < |objs| && i != index ensures objs[i].View() == was[i] {
        assert objs[i] != m;
      }
      ghost var next := Put(Fleet(was, log), index, m.View());
      mods, log := next.mods, next.log;
    }

    method StopLoop(ghost objs: seq<ModuleBase>, ghost was: seq<Mod>, hooks: Hooks) returns (r: Status, ghost mods: seq<Mod>)
      requires Listed(objs, was)
      modifies objs, this`log
      ensures Listed(objs, mods)
      ensures Pass(Fleet(mods, log), r) == StopDown(Fleet(was, old(log)), |moduleOrder|, hooks, Success)
    {
      hide StopDown, StopSpec, Listed;
      mods := was;
      Lengths(objs, mods);
      r := Success;
      var index := |moduleOrder|;
      while index > 0
        invariant 0 <= index <= |moduleOrder| == |mods| && Listed(objs, mods)
        invariant StopDown(Fleet(mods, log), index, hooks, r) == StopDown(Fleet(was, old(log)), |moduleOrder|, hooks, Success)
      {
        index := index - 1;
        StopNext(Fleet(mods, log), index, hooks, r);
        var status;
        status, mods := StopAt(objs, mods, index, hooks);
        if r.Success? && status.Failure? { r := status; }
      }
      StopDone(Fleet(mods, log), hooks, r);
    }

    method FiniAt(ghost objs: seq<ModuleBase>, ghost was: seq<Mod>, index: nat, hooks: Hooks)
      returns (status: Status, ghost mods: seq<Mod>)
      requires Listed(objs, was) && index < |moduleOrder| == |was|
      modifies objs, this`log
      ensures Listed(objs, mods) && |mods| == |was|
      ensures var c := FiniSpec(was[index], hooks(was[index].name, OnStop), hooks(was[index].name, OnFini));
              was[index].calls <= c.mod.calls && status == c.status && Fleet(mods, log) == Put(Fleet(was, old(log)), index, c.mod)
    {
      hide FiniSpec;
      Look(objs, was, index);
      var m := modulesByName[moduleOrder[index]];
      FiniNext(Fleet(was, log), index, hooks, Success);
      status := m.Fini(hooks(m.moduleName, OnStop), hooks(m.moduleName, OnFini));
      forall i | 0 <= i < |objs| && i != index ensures objs[i].View() == was[i] {
        assert objs[i] != m;
      }
      ghost var next := Put(Fleet(was, log), index, m.View());
      mods, log := next.mods, next.log;
    }

    method FiniLoop(ghost objs: seq<ModuleBase>, ghost was: seq<Mod>, hooks: Hooks) returns (r: Status, ghost mods: seq<Mod>)
      requires Listed(objs, was)
      modifies objs, this`log
      ensures Listed(objs, mods)
      ensures Pass(Fleet(mods, log), r) == FiniDown(Fleet(was, old(log)), |moduleOrder|, hooks, Success)
    {
      hide FiniDown, FiniSpec, Listed;
      mods := was;
      Lengths(objs, mods);
      r := Success;
      var index := |moduleOrder|;
      while index > 0
        invariant 0 <= index <= |moduleOrder| == |mods| && Listed(objs, mods)
        invariant FiniDown(Fleet(mods, log), index, hooks, r) == FiniDown(Fleet(was, old(log)), |moduleOrder|, hooks, Success)
      {
        index := index - 1;
        FiniNext(Fleet(mods, log), index, hooks, r);
        var status;
        status, mods := FiniAt(objs, mods, index, hooks);
        if r.Success? && status.Failure? { r := status; }
      }
      FiniDone(Fleet(mods, log), hooks, r);
    }

    /** `lastTeardown` keeps the fleet as it was before the containers are emptied. */
    method Fini(hooks: Hooks) returns (r: Status)
      requires Valid()
      modifies this, serviceRegistry, modulesByName.Values
      ensures Valid() && CurrentFleet() == EMPTY
      ensures modulesByName == map[] && configsByName == map[] && moduleOrder == [] && serviceRegistry.servicesByKey == map[]
      ensures Pass(lastTeardown, r) == Perform(old(CurrentFleet()), FiniAll(hooks))
      ensures |lastTeardown.mods| == |old(moduleOrder)| && forall k :: 0 <= k < |lastTeardown.mods| ==> TornDown(lastTeardown, k)
    {
      hide Good, Perform, Listed, Views, Objects, TornDown;
      FiniClosesEveryBracket(CurrentFleet(), hooks);
      ghost var mods;
      r, mods := TearDown(hooks);
      lastTeardown := Fleet(mods, log);
      Empty();
    }

    /** The backward loop over the modules. */
    method TearDown(hooks: Hooks) returns (r: Status, ghost mods: seq<Mod>)
      requires Indexed()
      modifies modulesByName.Values, this`log
      ensures Pass(Fleet(mods, log), r) == Perform(old(CurrentFleet()), FiniAll(hooks))
    {
      hide FiniDown;
      ghost var objs := ObjectsDiffer();
      mods := Mods();
      r, mods := FiniLoop(objs, mods, hooks);
    }

    /** Every container is cleared. */
    method Empty()
      modifies this`modulesByName, this`configsByName, this`moduleOrder, this`log, serviceRegistry
      ensures Valid() && CurrentFleet() == EMPTY
      ensures modulesByName == map[] && configsByName == map[] && moduleOrder == [] && serviceRegistry.servicesByKey == map[]
    {
      serviceRegistry.Clear();
      modulesByName, configsByName, moduleOrder, log := map[], map[], [], [];
      EmptyIsGood();
    }

    // ---- lookups ----

    method LookupModuleRaw(name: string) returns (r: Result<ModuleBase>)
      requires Valid()
      ensures r == if name in moduleOrder then Ok(modulesByName[name]) else Err(NotFound)
    {
      if name !in modulesByName { return Err(NotFound); }
      return Ok(modulesByName[name]);
    }

    method ModuleConfig(name: string) returns (r: Result<ConfigValue>)
      requires Valid()
      ensures r.Ok? <==> name in moduleOrder
      ensures r == if name in configsByName then Ok(configsByName[name]) else Err(NotFound)
    {
      if name !in configsByName { return Err(NotFound); }
      return Ok(configsByName[name]);
    }

    /** A named lookup finds exactly the loaded bus modules, and the objects the manager holds. */
    method LookupNamedService(key: string, name: string) returns (r: Result<ModuleBase>)
      requires Valid()
      ensures r.Ok? <==> key == BUS_KEY && name in Scan(Mods())
      ensures r.Ok? ==> name in modulesByName && r.value == modulesByName[name]
    {
      r := serviceRegistry.Lookup(key, name);
      NamedBus(modulesByName, key, name);
      ScanIsTheMap();
    }

    /** The unique lookup agrees with a plain scan of the load order. */
    method LookupUniqueService(key: string) returns (r: Result<ModuleBase>)
      requires Valid()
      ensures r.Ok? <==> key == BUS_KEY && |Scan(Mods())| == 1
      ensures r.Ok? ==> Scan(Mods())[0] in modulesByName && r.value == modulesByName[Scan(Mods())[0]]
    {
      hide Good, Views, Objects, Scan, BusServices;
      r := serviceRegistry.LookupUnique(key);
      ScanIsTheMap();
      UniqueBus(modulesByName, key);
      DistinctSize(Scan(Mods()), BusNames(modulesByName));
      if r.Ok? { assert Scan(Mods())[0] in BusNames(modulesByName); }
    }

    lemma ScanIsTheMap()
      requires Valid()
      ensures forall n :: n in Scan(Mods()) <==> n in modulesByName && modulesByName[n].isBus
      ensures Distinct(Scan(Mods()))
    {
      hide Good, Views, Objects, Scan, BusServices;
      ScanFinds(Mods());
      forall n ensures n in Scan(Mods()) <==> n in modulesByName && modulesByName[n].isBus {
        if n in modulesByName {
          var i :| 0 <= i < |moduleOrder| && moduleOrder[i] == n;
          assert Mods()[i] == modulesByName[n].View();
        }
      }
    }
  }
}
