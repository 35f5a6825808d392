/** Validating a generated data directory: every problem is collected, and none means the data is right. */
module CatalogueValidation {
  import opened Options
  import opened CatalogueData

  /** A JSON value as far as the validator tells values apart. */
  datatype Raw =
    | Missing
    | Text(text: string)
    | Finite(number: real)
    | NotFinite
    | Flag(flag: bool)
    | List(items: seq<Raw>)
    | Other

  datatype RawCost = NoCost | Cost(input: Raw, output: Raw, cacheRead: Raw, cacheWrite: Raw)

  datatype RawModel = NotAnObject | Object(
    id: Raw, provider: Raw, api: Raw, name: Raw, baseUrl: Raw, reasoning: Raw, input: Raw,
    contextWindow: Raw, maxTokens: Raw, cost: RawCost)

  datatype Problem =
    | NoDirectory | FilesDiffer | BadManifest | BadSchema | BadTimestamp | BadStamp | NoHashes | HashNamesDiffer
    | BadHash(provider: string) | BadFile(provider: string) | BadGroup(provider: string, groupApi: string)
    | RepeatedModel(provider: string, id: string) | BadModel(provider: string, id: string, field: string)
    | IdsDiffer(provider: string) | WrongGroup(provider: string, id: string)

  predicate Positive(r: Raw) {
    r.Finite? && r.number > 0.0
  }

  predicate Modalities(r: Raw) {
    r.List? && r.items != [] && forall i :: 0 <= i < |r.items| ==>
      r.items[i] == Text("text") || r.items[i] == Text("image")
  }

  /** What the catalogue needs of a model stored under this provider, id and API. */
  predicate GoodModel(v: RawModel, provider: string, id: string, api: string) {
    && v.Object?
    && v.id == Text(id) && v.provider == Text(provider) && v.api == Text(api)
    && v.name.Text? && v.name.text != "" && v.baseUrl.Text? && v.reasoning.Flag?
    && Modalities(v.input) && Positive(v.contextWindow) && Positive(v.maxTokens)
    && v.cost.Cost? && v.cost.input.Finite? && v.cost.output.Finite? && v.cost.cacheRead.Finite? &&
       v.cost.cacheWrite.Finite?
  }

  /** One line of `validateModelValue`: a problem unless the check holds. */
  function Check(ok: bool, provider: string, id: string, field: string): seq<Problem> {
    if ok then [] else [BadModel(provider, id, field)]
  }

  method ValidateModelValue(v: RawModel, provider: string, id: string, api: string) returns (errors: seq<Problem>)
    ensures errors == [] <==> GoodModel(v, provider, id, api)
    ensures v.NotAnObject? ==> |errors| == 1
  {
    if v.NotAnObject? {
      return [BadModel(provider, id, "object")];
    }
    errors := Check(v.id == Text(id), provider, id, "id");
    errors := errors + Check(v.provider == Text(provider), provider, id, "provider");
    errors := errors + Check(v.api == Text(api), provider, id, "api");
    errors := errors + Check(v.name.Text? && v.name.text != "", provider, id, "name");
    errors := errors + Check(v.baseUrl.Text?, provider, id, "baseUrl");
    errors := errors + Check(v.reasoning.Flag?, provider, id, "reasoning");
    errors := errors + Check(Modalities(v.input), provider, id, "input");
    errors := errors + Check(Positive(v.contextWindow), provider, id, "context");
    errors := errors + Check(Positive(v.maxTokens), provider, id, "tokens");
    if v.cost.NoCost? {
      errors := errors + [BadModel(provider, id, "cost")];
    } else {
      errors := errors + Check(v.cost.input.Finite?, provider, id, "cost");
      errors := errors + Check(v.cost.output.Finite?, provider, id, "cost");
      errors := errors + Check(v.cost.cacheRead.Finite?, provider, id, "cost");
      errors := errors + Check(v.cost.cacheWrite.Finite?, provider, id, "cost");
    }
  }

  // ---------- One provider's groups ----------

  ghost predicate GoodItems(items: seq<Item<RawModel>>, provider: string) {
    forall i :: 0 <= i < |items| ==> GoodModel(items[i].value, provider, items[i].id, items[i].api)
  }

  function IdsOf(items: seq<Item<RawModel>>): set<string> {
    set i | 0 <= i < |items| :: items[i].id
  }

  /** `models` has the ids met so far, and is what they record if nothing was wrong with them. */
  ghost predicate Tallied(items: seq<Item<RawModel>>, provider: string, models: map<string, string>, clean: bool) {
    && (clean <==> NoRepeats(items) && GoodItems(items, provider))
    && (clean ==> Records(items, models))
    && models.Keys == IdsOf(items)
  }

  lemma IdsOfSnoc(items: seq<Item<RawModel>>, item: Item<RawModel>)
    ensures IdsOf(items + [item]) == IdsOf(items) + {item.id}
  {
    var longer := items + [item];
    assert longer[|items|] == item;
    forall id | id in IdsOf(items) ensures id in IdsOf(longer) {
      var i :| 0 <= i < |items| && items[i].id == id;
      assert longer[i].id == id;
    }
  }

  lemma GoodItemsSnoc(items: seq<Item<RawModel>>, provider: string, item: Item<RawModel>)
    ensures GoodItems(items + [item], provider) <==>
            GoodItems(items, provider) && GoodModel(item.value, provider, item.id, item.api)
  {
    var longer := items + [item];
    assert longer[|items|] == item && forall i :: 0 <= i < |items| ==> longer[i] == items[i];
  }

  /** An id met before is a repeat, whatever else is wrong. */
  lemma MetTwice(items: seq<Item<RawModel>>, item: Item<RawModel>)
    requires item.id in IdsOf(items)
    ensures !NoRepeats(items + [item])
  {
    var j :| 0 <= j < |items| && items[j].id == item.id;
    var longer := items + [item];
    assert longer[j].id == longer[|items|].id;
  }

  lemma TallyOne(
    items: seq<Item<RawModel>>, provider: string, models: map<string, string>, clean: bool, item: Item<RawModel>)
    requires Tallied(items, provider, models, clean)
    ensures if item.id in models then Tallied(items + [item], provider, models, false)
            else Tallied(items + [item], provider, models[item.id := item.api],
                         clean && GoodModel(item.value, provider, item.id, item.api))
  {
    IdsOfSnoc(items, item);
    GoodItemsSnoc(items, provider, item);
    if item.id in models {
      MetTwice(items, item);
    } else {
      if clean {
        ReadOne(items, models, item);
      }
      if NoRepeats(items + [item]) {
        RepeatsRemain(items, items + [item]);
      }
    }
  }

  method ValidateGroup(
    ghost before: seq<Item<RawModel>>, provider: string, api: string, entries: seq<Entry<RawModel>>,
    known: map<string, string>, ghost clean: bool)
    returns (errors: seq<Problem>, models: map<string, string>)
    requires Tallied(before, provider, known, clean)
    ensures Tallied(before + Tagged(api, entries), provider, models, clean && errors == [])
  {
    errors, models := [], known;
    assert before + Tagged(api, entries[..0]) == before;
    for i := 0 to |entries|
      invariant Tallied(before + Tagged(api, entries[..i]), provider, models, clean && errors == [])
    {
      var id, value := entries[i].id, entries[i].value;
      TaggedSnoc(before, api, entries, i);
      TallyOne(before + Tagged(api, entries[..i]), provider, models, clean && errors == [], Item(api, id, value));
      if id in models {
        errors := errors + [RepeatedModel(provider, id)];
        continue;
      }
      models := models[id := api];
      var more := ValidateModelValue(value, provider, id, api);
      errors := errors + more;
    }
    assert entries[..|entries|] == entries;
  }

  ghost predicate AllObjects(groups: seq<Group<RawModel>>) {
    forall g :: 0 <= g < |groups| ==> groups[g].entries.Some?
  }

  /** A provider's file holds exactly the expected ids, each once, each right for its provider, id and API. */
  ghost predicate GoodProvider(groups: seq<Group<RawModel>>, provider: string, expected: map<string, string>) {
    AllObjects(groups) && NoRepeats(Items(groups)) && GoodItems(Items(groups), provider) &&
      Records(Items(groups), expected)
  }

  /** The loop over one provider's groups. */
  method ValidateGroups(groups: seq<Group<RawModel>>, provider: string)
    returns (errors: seq<Problem>, actual: map<string, string>, ghost clean: bool)
    ensures Tallied(Items(groups), provider, actual, clean)
    ensures errors == [] <==> clean && AllObjects(groups)
  {
    errors, actual, clean := [], map[], true;
    for g := 0 to |groups|
      invariant errors == [] <==> clean && AllObjects(groups[..g])
      invariant Tallied(Items(groups[..g]), provider, actual, clean)
    {
      var group := groups[g];
      assert groups[..g + 1] == groups[..g] + [group];
      ItemsSnoc(groups[..g], group);
      AllObjectsSnoc(groups[..g], group);
      if group.entries.None? {
        errors := errors + [BadGroup(provider, group.api)];
        assert Items(groups[..g + 1]) == Items(groups[..g]);
        continue;
      }
      var more;
      more, actual := ValidateGroup(Items(groups[..g]), provider, group.api, group.entries.value, actual, clean);
      errors, clean := errors + more, clean && more == [];
    }
    assert groups[..|groups|] == groups;
  }

  lemma AllObjectsSnoc(groups: seq<Group<RawModel>>, group: Group<RawModel>)
    ensures AllObjects(groups + [group]) <==> AllObjects(groups) && group.entries.Some?
  {
    var longer := groups + [group];
    assert longer[|groups|] == group && forall g :: 0 <= g < |groups| ==> longer[g] == groups[g];
  }

  /** The body of the loop over providers, once the file has been read. */
  method ValidateProvider(groups: seq<Group<RawModel>>, provider: string, expected: map<string, string>)
    returns (errors: seq<Problem>)
    ensures errors == [] <==> GoodProvider(groups, provider, expected)
  {
    var actual;
    ghost var clean;
    errors, actual, clean := ValidateGroups(groups, provider);
    if clean {
      RecordsUnique(Items(groups), actual, expected);
    }
    if expected.Keys != actual.Keys {
      errors := errors + [IdsDiffer(provider)];
    }
    var more := CompareGroups(provider, expected, actual);
    errors := errors + more;
  }

  method CompareGroups(
    provider: string, expected: map<string, string>, actual: map<string, string>) returns (errors: seq<Problem>)
    ensures errors == [] <==> forall id :: id in expected && id in actual ==> actual[id] == expected[id]
  {
    errors := [];
    var ids := expected.Keys;
    while ids != {}
      invariant ids <= expected.Keys
      invariant errors == [] <==>
                forall id :: id in expected && id !in ids && id in actual ==> actual[id] == expected[id]
    {
      var id :| id in ids;
      if id in actual && actual[id] != expected[id] {
        errors := errors + [WrongGroup(provider, id)];
      }
      ids := ids - {id};
    }
  }

  // ---------- The whole directory ----------

  /** A file as read: its text, and what parsing it gives (None if it is not a JSON object). */
  datatype DataFile = DataFile(text: string, groups: Option<seq<Group<RawModel>>>)

  /** The manifest as read; absent parts fail their checks. */
  datatype Manifest = Manifest(
    schemaVersion: Option<int>, generatedAt: Option<string>, structureHash: Option<string>,
    files: Option<map<string, string>>)

  const MODEL_DATA_SCHEMA_VERSION := 3

  type Structure = map<string, map<string, string>>

  /** The hash functions and what counts as a date, which stay opaque. */
  datatype Hashes = Hashes(text: string -> string, structure: Structure -> string, isDate: string -> bool)

  /** `manifest` is None if it is missing or not a JSON object. */
  ghost predicate GoodManifest(manifest: Option<Manifest>, structure: Structure, hashes: Hashes) {
    && manifest.Some? && manifest.value.schemaVersion == Some(MODEL_DATA_SCHEMA_VERSION) &&
       manifest.value.generatedAt.Some?
    && hashes.isDate(manifest.value.generatedAt.value)
    && manifest.value.structureHash == Some(hashes.structure(structure))
    && manifest.value.files.Some? && manifest.value.files.value.Keys == structure.Keys
  }

  ghost predicate GoodFile(
    file: DataFile, provider: string, expected: map<string, string>, manifest: Option<Manifest>, hashes: Hashes) {
    && (manifest.Some? && manifest.value.files.Some? ==>
          provider in manifest.value.files.value && manifest.value.files.value[provider] == hashes.text(file.text))
    && file.groups.Some? && GoodProvider(file.groups.value, provider, expected)
  }

  method ValidateManifest(
    manifest: Option<Manifest>, structure: Structure, hashes: Hashes) returns (errors: seq<Problem>)
    ensures errors == [] <==> GoodManifest(manifest, structure, hashes)
    ensures BadManifest in errors <==> manifest.None?
    ensures manifest.Some? ==>
              (BadSchema in errors <==> manifest.value.schemaVersion != Some(MODEL_DATA_SCHEMA_VERSION)) &&
              (BadTimestamp in errors <==>
                 manifest.value.generatedAt.None? || !hashes.isDate(manifest.value.generatedAt.value)) &&
              (BadStamp in errors <==> manifest.value.structureHash != Some(hashes.structure(structure))) &&
              (NoHashes in errors <==> manifest.value.files.None?) &&
              (HashNamesDiffer in errors <==>
                 manifest.value.files.Some? && manifest.value.files.value.Keys != structure.Keys)
  {
    errors := if manifest.None? then [BadManifest] else [];
    if manifest.None? || manifest.value.schemaVersion != Some(MODEL_DATA_SCHEMA_VERSION) {
      errors := errors + [BadSchema];
    }
    if manifest.None? || manifest.value.generatedAt.None? || !hashes.isDate(manifest.value.generatedAt.value) {
      errors := errors + [BadTimestamp];
    }
    if manifest.None? || manifest.value.structureHash != Some(hashes.structure(structure)) {
      errors := errors + [BadStamp];
    }
    if manifest.None? || manifest.value.files.None? {
      errors := errors + [NoHashes];
    } else if manifest.value.files.value.Keys != structure.Keys {
      errors := errors + [HashNamesDiffer];
    }
  }

  method ValidateFile(
    file: DataFile, provider: string, expected: map<string, string>, manifest: Option<Manifest>, hashes: Hashes)
    returns (errors: seq<Problem>)
    ensures errors == [] <==> GoodFile(file, provider, expected, manifest, hashes)
  {
    errors := [];
    if manifest.Some? && manifest.value.files.Some? {
      var recorded := manifest.value.files.value;
      if provider !in recorded || recorded[provider] != hashes.text(file.text) {
        errors := errors + [BadHash(provider)];
      }
    }
    if file.groups.None? {
      errors := errors + [BadFile(provider)];
      return;
    }
    var more := ValidateProvider(file.groups.value, provider, expected);
    errors := errors + more;
  }

  /**
   * `validateModelDataDirectory`, on the data files keyed by provider, if the directory exists: no problem is
   * found exactly when it does, the manifest is right, the files are those of the expected providers, and every
   * file matches its recorded hash and holds exactly its provider's models.
   */
  method ValidateDirectory(
    structure: Structure, directory: Option<map<string, DataFile>>, manifest: Option<Manifest>, hashes: Hashes)
    returns (errors: seq<Problem>)
    ensures errors == [] <==>
            directory.Some? && directory.value.Keys == structure.Keys && GoodManifest(manifest, structure, hashes) &&
            forall p :: p in structure && p in directory.value ==>
              GoodFile(directory.value[p], p, structure[p], manifest, hashes)
  {
    if directory.None? {
      return [NoDirectory];
    }
    var files := directory.value;
    errors := if files.Keys != structure.Keys then [FilesDiffer] else [];
    var more := ValidateManifest(manifest, structure, hashes);
    errors := errors + more;
    ghost var before := errors;
    var providers := structure.Keys;
    while providers != {}
      invariant providers <= structure.Keys
      invariant errors == [] <==>
                before == [] && forall p :: p in structure.Keys - providers && p in files ==>
                  GoodFile(files[p], p, structure[p], manifest, hashes)
    {
      var p :| p in providers;
      if p in files {
        more := ValidateFile(files[p], p, structure[p], manifest, hashes);
        errors := errors + more;
      }
      providers := providers - {p};
    }
  }

  lemma RecordedIds(items: seq<Item<RawModel>>, expected: map<string, string>)
    requires Records(items, expected)
    ensures IdsOf(items) == expected.Keys
  {
    forall id ensures id in IdsOf(items) <==> id in expected {
      if id in expected { var i :| 0 <= i < |items| && items[i].id == id; }
    }
  }

  /**
   * If validation finds nothing, each provider holds exactly the expected ids, each with its own id, provider and API.
   */
  lemma ValidatedProviderIsExact(groups: seq<Group<RawModel>>, provider: string, expected: map<string, string>)
    requires GoodProvider(groups, provider, expected)
    ensures IdsOf(Items(groups)) == expected.Keys && |Items(groups)| == |expected|
    ensures forall i :: 0 <= i < |Items(groups)| ==>
              var item := Items(groups)[i];
              item.value.id == Text(item.id) && item.value.provider == Text(provider) &&
                item.value.api == Text(expected[item.id])
  {
    var items := Items(groups);
    RecordedIds(items, expected);
    CountIds(items);
    assert |expected| == |expected.Keys|;
  }

  lemma {:induction false} CountIds(items: seq<Item<RawModel>>)
    requires NoRepeats(items)
    ensures |IdsOf(items)| == |items|
  {
    if items == [] {
      assert IdsOf(items) == {};
    } else {
      var init, last := items[..|items| - 1], items[|items| - 1];
      assert items == init + [last];
      RepeatsRemain(init, items);
      CountIds(init);
      IdsOfSnoc(init, last);
      if last.id in IdsOf(init) {
        MetTwice(init, last);
      }
    }
  }
}
