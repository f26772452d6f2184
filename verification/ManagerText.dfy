/** The module configuration file written out, and which modules of it are loaded. */
module ManagerText {
  import opened Prelude
  import opened ConfigValues
  import opened KeyedLists
  import opened ConfigText
  import opened ModuleFleet
  import opened ModuleManager

  // ---- the file ----

  function ModuleEntry(e: ModuleConfigSpec): ConfigValue {
    Obj(map["name" := Str(e.name), "type" := Str(e.moduleType), "library_path" := Str(e.libraryPath), "config" := e.config])
  }

  lemma ModuleFields(e: ModuleConfigSpec)
    ensures ModuleEntry(e).Obj?
    ensures var m := ModuleEntry(e).fields;
            && "name" in m && m["name"] == Str(e.name)
            && "type" in m && m["type"] == Str(e.moduleType)
            && "library_path" in m && m["library_path"] == Str(e.libraryPath)
            && "config" in m && m["config"] == e.config
  {
  }

  /** A module's entry comes back; its three texts are required, its configuration may be left out. */
  lemma ModuleComesBack(e: ModuleConfigSpec, omitted: set<string>)
    requires e.config.Obj?
    ensures ParseEntry(Without(ModuleEntry(e), omitted)) ==
              if "name" in omitted || "type" in omitted || "library_path" in omitted ||
                 e.name == "" || e.moduleType == "" || e.libraryPath == ""
              then Err(ParseError) else Ok(e.(config := if "config" in omitted then Obj(map[]) else e.config))
  {
    hide ModuleEntry, Without, RequiredString, OptionalObject;
    ModuleFields(e);
    ReadRequired(ModuleEntry(e), omitted, "name");
    ReadRequired(ModuleEntry(e), omitted, "type");
    ReadRequired(ModuleEntry(e), omitted, "library_path");
    ReadSection(ModuleEntry(e), omitted, "config");
  }

  function FileText(version: int64, entries: seq<ConfigValue>): ConfigValue {
    Obj(map["schema_version" := Int64(version), "modules" := Arr(entries)])
  }

  /** A file of another version is refused; one of version 2 with entries that say `specs`, no two with one
      name, gives exactly these, in order. */
  lemma FileComesBack(version: int64, entries: seq<ConfigValue>, specs: seq<ModuleConfigSpec>)
    requires |entries| == |specs| && (forall i :: 0 <= i < |specs| ==> ParseEntry(entries[i]) == Ok(specs[i]))
    requires UniqueKeys(specs, EntryName)
    ensures ReadConfig(Ok(FileText(version, entries))) == if version == 2 then Ok(specs) else Err(VersionMismatch)
  {
    ListComesBack(entries, specs, ParseEntry, EntryName);
    hide UniqueKeys, ParseEntry;
    var m := FileText(version, entries).fields;
    assert "schema_version" in m && m["schema_version"] == Int64(version) && "modules" in m && m["modules"] == Arr(entries);
  }

  // ---- the plugins ----

  /** The plugin opens, and is of the type that the file says. */
  predicate Fits(e: ModuleConfigSpec, open: Loader) {
    open(e.libraryPath).Ok? && e.name != "" && open(e.libraryPath).value.moduleType == e.moduleType && e.moduleType != ""
  }

  /** A batch is staged exactly when every plugin fits its entry. */
  lemma {:induction false} StagedIff(entries: seq<ModuleConfigSpec>, open: Loader)
    ensures StageAll(entries, open).Success? <==> forall e :: e in entries ==> Fits(e, open)
  {
    if entries != [] {
      var init, last := entries[..|entries| - 1], entries[|entries| - 1];
      assert entries == init + [last];
      StagedIff(init, open);
      OneStagedIff(last, open);
    }
  }

  lemma OneStagedIff(e: ModuleConfigSpec, open: Loader)
    ensures StageOne(e, open).Success? <==> Fits(e, open)
    ensures open(e.libraryPath).Err? ==> StageOne(e, open) == Failure(open(e.libraryPath).error)
    ensures open(e.libraryPath).Ok? && e.name != "" && !Fits(e, open) ==> StageOne(e, open) == Failure(InvalidState)
  {
  }

  /** When a batch is refused although its file is read and none of its names is loaded, it is for the
      first plugin that does not fit. */
  lemma {:induction false} FirstMisfitDecides(entries: seq<ModuleConfigSpec>, open: Loader)
    requires StageAll(entries, open).Failure?
    ensures exists i :: 0 <= i < |entries| && !Fits(entries[i], open) && StageAll(entries, open) == StageOne(entries[i], open) &&
              forall j :: 0 <= j < i ==> Fits(entries[j], open)
  {
    if entries != [] {
      var init, last := entries[..|entries| - 1], entries[|entries| - 1];
      assert forall j :: 0 <= j < |init| ==> init[j] == entries[j];
      StagedIff(init, open);
      OneStagedIff(last, open);
      if StageAll(init, open).Failure? {
        FirstMisfitDecides(init, open);
        var i :| 0 <= i < |init| && !Fits(init[i], open) && StageAll(init, open) == StageOne(init[i], open) &&
                 forall j :: 0 <= j < i ==> Fits(init[j], open);
        assert !Fits(entries[i], open);
      } else {
        assert forall j :: 0 <= j < |init| ==> init[j] in init;
        assert !Fits(entries[|init|], open);
      }
    }
  }

  /** When a batch is loaded, and otherwise why it is refused: the first of four reasons decides. */
  lemma LoadStatusTells(path: string, file: Result<ConfigValue>, loaded: set<string>, open: Loader)
    ensures var status := LoadStatus(path, file, loaded, open);
            var taken := ReadConfig(file).Ok? && exists e :: e in ReadConfig(file).value && e.name in loaded;
            && (status.Success? <==> path != "" && ReadConfig(file).Ok? && !taken &&
                                     forall e :: e in ReadConfig(file).value ==> Fits(e, open))
            && (path == "" ==> status == Failure(InvalidArgument))
            && (path != "" && ReadConfig(file).Err? ==> status == Failure(ReadConfig(file).error))
            && (path != "" && taken ==> status == Failure(AlreadyExists))
  {
    hide ReadConfig, Fits;
    if ReadConfig(file).Ok? { StagedIff(ReadConfig(file).value, open); }
  }
}
