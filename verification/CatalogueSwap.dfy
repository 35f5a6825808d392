/** Replacing the generated model catalogue: staged, swapped in, and rolled back if anything fails. */
module CatalogueSwap {
  import opened Options

  type Directory = map<string, string>

  const SHARD_SUFFIX: string := ".models.ts"

  predicate IsShard(name: string) {
    |SHARD_SUFFIX| <= |name| && name[|name| - |SHARD_SUFFIX|..] == SHARD_SUFFIX
  }

  function Shards(files: Directory): Directory {
    map name | name in files && IsShard(name) :: files[name]
  }

  function Others(files: Directory): Directory {
    map name | name in files && !IsShard(name) :: files[name]
  }

  /** What a generator run sets out to install. A data-only run leaves the shards and the aggregator alone. */
  datatype Plan = Plan(
    dataOnly: bool, dataFiles: Directory, manifestName: string, manifest: string, shards: Directory, aggregator: string)

  /** The part of the package the generator may change. */
  datatype Catalogue = Catalogue(providers: Directory, aggregator: string, data: Option<Directory>)

  /** The catalogue a run that succeeds leaves behind. */
  function Installed(was: Catalogue, plan: Plan): Catalogue {
    var data := Some(plan.dataFiles[plan.manifestName := plan.manifest]);
    if plan.dataOnly then was.(data := data)
    else Catalogue(Others(was.providers) + plan.shards, plan.aggregator, data)
  }

  lemma ShardsAndOthers(files: Directory)
    ensures Others(files) + Shards(files) == files
  {
  }

  /** The files that are not still to do. */
  function Done(files: Directory, todo: set<string>): Directory {
    map name | name in files && name !in todo :: files[name]
  }

  lemma DoneOne(base: Directory, files: Directory, todo: set<string>, name: string)
    requires name in todo && name in files
    ensures (base + Done(files, todo))[name := files[name]] == base + Done(files, todo - {name})
    ensures Done(files, todo)[name := files[name]] == Done(files, todo - {name})
  {
  }

  /** Writing a shard, well or badly, leaves all other files alone. */
  lemma OthersUntouched(files: Directory, name: string, content: string)
    requires IsShard(name)
    ensures Others(files[name := content]) == Others(files)
  {
  }

  /** Every forward operation may fail; a failing write may leave anything in its file. */
  datatype Fault = Fine | Refused | Torn(garbage: string)

  class Package {
    var providers: Directory           // the files of src/providers
    var aggregator: string             // src/models.generated.ts
    var data: Option<Directory>        // src/providers/data
    var stagedData: Option<Directory>  // the staging directory's two parts
    var previousData: Option<Directory>
    const faults: nat -> Fault
    var clock: nat

    constructor (was: Catalogue, faults: nat -> Fault)
      ensures Value() == was && stagedData.None? && previousData.None?
    {
      providers, aggregator, data := was.providers, was.aggregator, was.data;
      stagedData, previousData := None, None;
      this.faults, clock := faults, 0;
    }

    ghost function Value(): Catalogue
      reads this
    {
      Catalogue(providers, aggregator, data)
    }

    /** The operations attempted since a moment have all gone well. */
    ghost predicate WentWell(since: nat)
      reads this
    {
      forall n :: since <= n < clock ==> faults(n).Fine?
    }

    method Attempt() returns (fault: Fault)
      modifies this`clock
      ensures fault == faults(old(clock)) && clock == old(clock) + 1
    {
      fault := faults(clock);
      clock := clock + 1;
    }

    /** Writes the staged data files and their manifest, and validates them. */
    method StageData(plan: Plan) returns (ok: bool)
      requires stagedData.None?
      modifies this`stagedData, this`clock
      ensures ok <==> WentWell(old(clock))
      ensures clock >= old(clock)
      ensures ok ==> stagedData == Some(plan.dataFiles[plan.manifestName := plan.manifest])
    {
      var fault := Attempt();
      if !fault.Fine? { return false; }
      stagedData := Some(map[]);
      var todo := plan.dataFiles.Keys;
      while todo != {}
        invariant todo <= plan.dataFiles.Keys && stagedData.Some?
        invariant clock >= old(clock) && WentWell(old(clock))
        invariant stagedData.value == Done(plan.dataFiles, todo)
      {
        var name :| name in todo;
        fault := Attempt();
        if !fault.Fine? { return false; }
        DoneOne(map[], plan.dataFiles, todo, name);
        stagedData := Some(stagedData.value[name := plan.dataFiles[name]]);
        todo := todo - {name};
      }
      assert stagedData.value == plan.dataFiles;
      fault := Attempt();
      if !fault.Fine? { return false; }
      stagedData := Some(stagedData.value[plan.manifestName := plan.manifest]);
      fault := Attempt();  // validation of the staged directory
      ok := fault.Fine?;
    }

    method WriteShards(shards: Directory) returns (ok: bool)
      requires forall name :: name in shards ==> IsShard(name)
      modifies this`providers, this`clock
      ensures ok <==> WentWell(old(clock))
      ensures clock >= old(clock)
      ensures Others(providers) == Others(old(providers))
      ensures ok ==> providers == old(providers) + shards
    {
      var todo := shards.Keys;
      while todo != {}
        invariant todo <= shards.Keys && Others(providers) == Others(old(providers))
        invariant clock >= old(clock) && WentWell(old(clock))
        invariant providers == old(providers) + Done(shards, todo)
      {
        var name :| name in todo;
        var fault := Attempt();
        if !fault.Fine? {
          if fault.Torn? {
            OthersUntouched(providers, name, fault.garbage);
            providers := providers[name := fault.garbage];
          }
          return false;
        }
        DoneOne(old(providers), shards, todo, name);
        OthersUntouched(providers, name, shards[name]);
        providers := providers[name := shards[name]];
        todo := todo - {name};
      }
      ok := true;
    }

    /** Removes the shards of providers that are no longer generated. */
    method RemoveStaleShards(keep: set<string>) returns (ok: bool)
      modifies this`providers, this`clock
      ensures ok <==> WentWell(old(clock))
      ensures clock >= old(clock)
      ensures Others(providers) == Others(old(providers))
      ensures ok ==>
              providers == map name | name in old(providers) && (!IsShard(name) || name in keep) :: old(providers)[name]
    {
      var todo := set name | name in providers && IsShard(name) && name !in keep;
      while todo != {}
        invariant todo <= (set name | name in old(providers) && IsShard(name) && name !in keep)
        invariant clock >= old(clock) && WentWell(old(clock))
        invariant providers ==
                  map name | name in old(providers) && (!IsShard(name) || name in keep || name in todo)
                    :: old(providers)[name]
      {
        var name :| name in todo;
        var fault := Attempt();
        if !fault.Fine? { return false; }
        providers := providers - {name};
        todo := todo - {name};
      }
      ok := true;
    }

    /** `restoreGeneratedCatalog`: drops every shard and writes the remembered ones back. */
    method RestoreGeneratedCatalog(previousShards: Directory, previousAggregator: string)
      requires forall name :: name in previousShards ==> IsShard(name)
      modifies this`providers, this`aggregator
      ensures providers == Others(old(providers)) + previousShards && aggregator == previousAggregator
    {
      providers := providers - (set name | name in providers && IsShard(name));
      providers := providers + previousShards;
      aggregator := previousAggregator;
    }

    /** The shards and the aggregator, forwards. */
    method InstallShards(plan: Plan) returns (ok: bool)
      requires forall name :: name in plan.shards ==> IsShard(name)
      modifies this`providers, this`aggregator, this`clock
      ensures ok <==> WentWell(old(clock))
      ensures clock >= old(clock)
      ensures Others(providers) == Others(old(providers))
      ensures ok ==> providers == Others(old(providers)) + plan.shards && aggregator == plan.aggregator
    {
      ok := WriteShards(plan.shards);
      if !ok { return; }
      ok := RemoveStaleShards(plan.shards.Keys);
      if !ok { return; }
      var fault := Attempt();
      if !fault.Fine? {
        if fault.Torn? { aggregator := fault.garbage; }
        return false;
      }
      aggregator := plan.aggregator;
    }

    /** Moves the old data aside and the staged data in; on failure puts the old data back. */
    method SwapData() returns (ok: bool)
      requires stagedData.Some? && previousData.None?
      modifies this`data, this`stagedData, this`previousData, this`clock
      ensures ok <==> WentWell(old(clock))
      ensures clock >= old(clock)
      ensures data == if ok then old(stagedData) else old(data)
    {
      var hadPreviousData := data.Some?;
      if hadPreviousData {
        var fault := Attempt();
        if !fault.Fine? { return false; }
        previousData, data := data, None;
      }
      var fault := Attempt();
      if fault.Fine? {
        data, stagedData := stagedData, None;
        fault := Attempt();  // validation of the installed catalogue
      }
      if !fault.Fine? {
        data := None;
        if hadPreviousData && previousData.Some? {
          data, previousData := previousData, None;
        }
        return false;
      }
      ok := true;
    }

    /**
     * Installing a catalogue is all or nothing: if any forward operation fails, whatever it leaves behind,
     * shards, aggregator and data are as before; if and only if none fails, all are new. Files of other kinds
     * are never touched, and the staging directory is gone either way.
     */
    method Install(plan: Plan) returns (ok: bool)
      requires stagedData.None? && previousData.None?
      requires forall name :: name in plan.shards ==> IsShard(name)
      modifies this
      ensures ok <==> WentWell(old(clock))
      ensures Value() == if ok then Installed(old(Value()), plan) else old(Value())
      ensures stagedData.None? && previousData.None?
    {
      var restore: Option<(Directory, string)> := None;
      ok := StageData(plan);
      if ok && !plan.dataOnly {
        var fault := Attempt();  // reading the current shards and aggregator
        ok := fault.Fine?;
        if ok {
          restore := Some((Shards(providers), aggregator));
          ok := InstallShards(plan);
        }
      }
      if ok {
        ok := SwapData();
      }
      if !ok && restore.Some? {
        ShardsAndOthers(old(providers));
        RestoreGeneratedCatalog(restore.value.0, restore.value.1);
      }
      stagedData, previousData := None, None;
    }
  }
}
