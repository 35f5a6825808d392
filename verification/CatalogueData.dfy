/** The generated model data: deduplicated, grouped by API, flattened again, read back and validated. */
module CatalogueData {
  import opened Options

  datatype Model = Model(provider: string, id: string, api: string, data: string)

  // ---------- Deduplication ----------

  /** The first model of a list with this provider and id, if any. */
  function First(all: seq<Model>, provider: string, id: string): Option<Model> {
    if all == [] then None
    else
      var before := First(all[..|all| - 1], provider, id);
      var last := all[|all| - 1];
      if before.None? && last.provider == provider && last.id == id then Some(last) else before
  }

  lemma {:induction false} FirstIsFirst(all: seq<Model>, provider: string, id: string)
    ensures match First(all, provider, id)
            case None => forall m :: m in all ==> m.provider != provider || m.id != id
            case Some(model) =>
              exists i :: 0 <= i < |all| && all[i] == model && model.provider == provider && model.id == id &&
                forall j :: 0 <= j < i ==> all[j].provider != provider || all[j].id != id
  {
    if all != [] {
      var init := all[..|all| - 1];
      FirstIsFirst(init, provider, id);
      assert forall m :: m in all <==> m in init || m == all[|all| - 1] by {
        assert all == init + [all[|all| - 1]];
      }
      assert First(init, provider, id).None? ==> forall j :: 0 <= j < |init| ==> init[j] in init;
    }
  }

  type Providers = map<string, map<string, Model>>

  function Find(providers: Providers, provider: string, id: string): Option<Model> {
    if provider in providers && id in providers[provider] then Some(providers[provider][id]) else None
  }

  /** Groups by provider, the first model with an id winning. */
  method Deduplicate(all: seq<Model>) returns (providers: Providers)
    ensures forall p, id :: Find(providers, p, id) == First(all, p, id)
    ensures forall p :: p in providers <==> exists m :: m in all && m.provider == p
  {
    providers := map[];
    for i := 0 to |all|
      invariant forall p, id :: Find(providers, p, id) == First(all[..i], p, id)
      invariant forall p :: p in providers <==> exists m :: m in all[..i] && m.provider == p
    {
      var model := all[i];
      assert all[..i + 1][..i] == all[..i] && all[..i + 1] == all[..i] + [model];
      ghost var before := providers;
      if model.provider !in providers {
        providers := providers[model.provider := map[]];
      }
      if model.id !in providers[model.provider] {
        providers := providers[model.provider := providers[model.provider][model.id := model]];
      }
      forall p, id ensures Find(providers, p, id) == First(all[..i + 1], p, id) {
        assert Find(before, p, id) == First(all[..i], p, id);
      }
    }
    assert all[..|all|] == all;
  }

  // ---------- Grouping and flattening ----------

  type Groups = map<string, map<string, Model>>

  function Apis(models: map<string, Model>): set<string> {
    set id | id in models :: models[id].api
  }

  function OfApi(models: map<string, Model>, api: string): map<string, Model> {
    map id | id in models && models[id].api == api :: models[id]
  }

  /** The recorded structure of the models whose API is not among `open`. */
  function ApisOf(models: map<string, Model>, open: set<string>): map<string, string> {
    map id | id in models && models[id].api !in open :: models[id].api
  }

  ghost predicate IsGrouping(models: map<string, Model>, groups: Groups) {
    groups.Keys == Apis(models) && forall api :: api in groups ==> groups[api] == OfApi(models, api)
  }

  /** The inner loop: the models of one API, each recorded in the structure. */
  method CollectApi(models: map<string, Model>, api: string, recorded: map<string, string>)
    returns (group: map<string, Model>, structure: map<string, string>)
    ensures group == OfApi(models, api)
    ensures structure == recorded + Tag(OfApi(models, api), api)
  {
    group, structure := map[], recorded;
    var ids := models.Keys;
    assert recorded + Tag(map[], api) == recorded;
    while ids != {}
      invariant ids <= models.Keys
      invariant forall id :: id in group <==> id in models && id !in ids && models[id].api == api
      invariant forall id :: id in group ==> group[id] == models[id]
      invariant structure == recorded + Tag(group, api)
    {
      var id :| id in ids;
      if models[id].api == api {
        TagOne(recorded, group, id, models[id], api);
        group := group[id := models[id]];
        structure := structure[id := api];
      }
      ids := ids - {id};
    }
    assert group == OfApi(models, api);
  }

  function Tag(group: map<string, Model>, api: string): map<string, string> {
    map id | id in group :: api
  }

  lemma TagOne(recorded: map<string, string>, group: map<string, Model>, id: string, model: Model, api: string)
    ensures recorded + Tag(group[id := model], api) == (recorded + Tag(group, api))[id := api]
  {
  }

  /** One group per API, and the record of every model's API. */
  method GroupByApi(models: map<string, Model>) returns (groups: Groups, structure: map<string, string>)
    ensures IsGrouping(models, groups)
    ensures structure == Recorded(models)
  {
    groups, structure := map[], map[];
    var apis := Apis(models);
    while apis != {}
      invariant apis <= Apis(models) && groups.Keys == Apis(models) - apis
      invariant forall api :: api in groups ==> groups[api] == OfApi(models, api)
      invariant structure == ApisOf(models, apis)
    {
      var api :| api in apis;
      var group;
      group, structure := CollectApi(models, api, structure);
      groups := groups[api := group];
      StructureGrows(models, apis, api);
      apis := apis - {api};
    }
  }

  lemma StructureGrows(models: map<string, Model>, open: set<string>, api: string)
    requires api in open
    ensures ApisOf(models, open - {api}) == ApisOf(models, open) + Tag(OfApi(models, api), api)
  {
  }

  /** `Object.assign({}, ...groups)` over the groups in some order. */
  function Flatten(groups: Groups, order: seq<string>): map<string, Model>
    requires forall api :: api in order ==> api in groups
  {
    if order == [] then map[]
    else
      assert order[|order| - 1] in order;
      Flatten(groups, order[..|order| - 1]) + groups[order[|order| - 1]]
  }

  lemma {:induction false} FlattenSome(models: map<string, Model>, groups: Groups, order: seq<string>)
    requires IsGrouping(models, groups) && forall api :: api in order ==> api in groups
    ensures Flatten(groups, order) == map id | id in models && models[id].api in order :: models[id]
  {
    if order != [] {
      var init, last := order[..|order| - 1], order[|order| - 1];
      assert forall api :: api in order <==> api in init || api == last by {
        assert order == init + [last];
      }
      FlattenSome(models, groups, init);
    }
  }

  /** Round trip: flattening the groups in any order gives back the catalogue. */
  lemma GroupThenFlatten(models: map<string, Model>, groups: Groups, order: seq<string>)
    requires IsGrouping(models, groups) && forall api :: api in order <==> api in groups
    ensures Flatten(groups, order) == models
  {
    FlattenSome(models, groups, order);
    assert forall id :: id in models ==> models[id].api in Apis(models);
  }

  // ---------- Reading a provider file back ----------

  /** A parsed data file: its API groups in order; a group that is not an object has no entries. */
  datatype Entry<V> = Entry(id: string, value: V)
  datatype Group<V> = Group(api: string, entries: Option<seq<Entry<V>>>)

  datatype Read = Structure(models: map<string, string>) | NotAnObject(api: string) | Repeated(id: string) | Empty

  /** All entries of a file with their API, in reading order. */
  datatype Item<V> = Item(api: string, id: string, value: V)

  function Tagged<V>(api: string, entries: seq<Entry<V>>): seq<Item<V>> {
    seq(|entries|, i requires 0 <= i < |entries| => Item(api, entries[i].id, entries[i].value))
  }

  function Items<V>(groups: seq<Group<V>>): seq<Item<V>> {
    if groups == [] then []
    else
      var last := groups[|groups| - 1];
      Items(groups[..|groups| - 1]) + Tagged(last.api, last.entries.GetOr([]))
  }

  ghost predicate NoRepeats<V>(items: seq<Item<V>>) {
    forall i, j :: 0 <= i < j < |items| ==> items[i].id != items[j].id
  }

  ghost predicate Records<V>(items: seq<Item<V>>, models: map<string, string>) {
    && (forall i :: 0 <= i < |items| ==> items[i].id in models && models[items[i].id] == items[i].api)
    && (forall id :: id in models ==> exists i :: 0 <= i < |items| && items[i].id == id)
  }

  lemma ItemsSnoc<V>(groups: seq<Group<V>>, group: Group<V>)
    ensures Items(groups + [group]) == Items(groups) + Tagged(group.api, group.entries.GetOr([]))
  {
    assert (groups + [group])[..|groups|] == groups;
  }

  lemma {:induction false} ItemsPrefix<V>(groups: seq<Group<V>>, n: nat)
    requires n <= |groups|
    ensures Items(groups[..n]) <= Items(groups)
    decreases |groups| - n
  {
    if n == |groups| {
      assert groups[..n] == groups;
    } else {
      ItemsPrefix(groups, n + 1);
      assert groups[..n + 1] == groups[..n] + [groups[n]];
      ItemsSnoc(groups[..n], groups[n]);
    }
  }

  /** A model read so far is recorded under its API, and nothing else is. */
  ghost predicate ReadSoFar<V>(items: seq<Item<V>>, models: map<string, string>) {
    NoRepeats(items) && Records(items, models)
  }

  lemma ReadOne<V>(items: seq<Item<V>>, models: map<string, string>, item: Item<V>)
    requires ReadSoFar(items, models)
    ensures if item.id in models then OccursTwice(items + [item], item.id) && !NoRepeats(items + [item])
            else ReadSoFar(items + [item], models[item.id := item.api])
  {
    var longer := items + [item];
    if item.id in models {
      var j :| 0 <= j < |items| && items[j].id == item.id;
      assert longer[j].id == longer[|items|].id;
    } else {
      assert longer[|items|] == item;
      forall id | id in models ensures exists i :: 0 <= i < |longer| && longer[i].id == id {
        var i :| 0 <= i < |items| && items[i].id == id;
        assert longer[i].id == id;
      }
    }
  }

  lemma RepeatsRemain<V>(items: seq<Item<V>>, longer: seq<Item<V>>)
    requires items <= longer && NoRepeats(longer)
    ensures NoRepeats(items)
  {
    assert forall i :: 0 <= i < |items| ==> items[i] == longer[i];
  }

  lemma TwiceRemains<V>(items: seq<Item<V>>, longer: seq<Item<V>>, id: string)
    requires items <= longer && OccursTwice(items, id)
    ensures OccursTwice(longer, id) && !NoRepeats(longer)
  {
    var i, j :| 0 <= i < j < |items| && items[i].id == items[j].id == id;
    assert longer[i].id == longer[j].id == id;
  }

  lemma TaggedSnoc<V>(before: seq<Item<V>>, api: string, entries: seq<Entry<V>>, i: nat)
    requires i < |entries|
    ensures before + Tagged(api, entries[..i + 1]) ==
            before + Tagged(api, entries[..i]) + [Item(api, entries[i].id, entries[i].value)]
    ensures before + Tagged(api, entries[..i + 1]) <= before + Tagged(api, entries)
  {
  }

  ghost predicate OccursTwice<V>(items: seq<Item<V>>, id: string) {
    exists i, j :: 0 <= i < j < |items| && items[i].id == items[j].id == id
  }

  /** The failure names something that is wrong with the file. */
  ghost predicate IsFault<V>(groups: seq<Group<V>>, r: Read) {
    match r
    case NotAnObject(api) => exists g :: 0 <= g < |groups| && groups[g].api == api && groups[g].entries.None?
    case Repeated(id) => OccursTwice(Items(groups), id)
    case Empty => Items(groups) == []
    case Structure(_) => true
  }

  /**
   * What reading a file is to give: a structure exactly if the file is well formed, and then the right one, or else
   * what is wrong.
   */
  ghost predicate ReadsAs<V>(groups: seq<Group<V>>, r: Read) {
    && (r.Structure? <==>
          (forall g :: 0 <= g < |groups| ==> groups[g].entries.Some?) && NoRepeats(Items(groups)) &&
            Items(groups) != [])
    && (r.Structure? ==> Records(Items(groups), r.models))
    && IsFault(groups, r)
  }

  /**
   * `readProviderStructure`: succeeds exactly when every group is an object, no id occurs twice and there is
   * at least one model, and then returns every model's API.
   */
  method ReadProviderStructure<V>(groups: seq<Group<V>>) returns (r: Read)
    ensures ReadsAs(groups, r)
  {
    var models: map<string, string> := map[];
    for g := 0 to |groups|
      invariant forall k :: 0 <= k < g ==> groups[k].entries.Some?
      invariant ReadSoFar(Items(groups[..g]), models)
    {
      var group := groups[g];
      assert groups[..g + 1] == groups[..g] + [group];
      ItemsSnoc(groups[..g], group);
      if group.entries.None? {
        return NotAnObject(group.api);
      }
      var repeated;
      models, repeated := AddGroup(Items(groups[..g]), models, group.api, group.entries.value);
      if repeated.Some? {
        ItemsPrefix(groups, g + 1);
        TwiceRemains(Items(groups[..g + 1]), Items(groups), repeated.value);
        return Repeated(repeated.value);
      }
    }
    assert groups[..|groups|] == groups;
    if |models| == 0 {
      EmptyRecord(Items(groups), models);
      return Empty;
    }
    EmptyRecord(Items(groups), models);
    r := Structure(models);
  }

  lemma EmptyRecord<V>(items: seq<Item<V>>, models: map<string, string>)
    requires Records(items, models)
    ensures |models| == 0 <==> items == []
  {
    if items != [] {
      assert items[0].id in models;
    } else {
      assert models == map[];
    }
  }

  /** The inner loop: adds a group's ids to those read before, unless one of them was. */
  method AddGroup<V>(ghost before: seq<Item<V>>, known: map<string, string>, api: string, entries: seq<Entry<V>>)
    returns (models: map<string, string>, repeated: Option<string>)
    requires ReadSoFar(before, known)
    ensures if repeated.None? then ReadSoFar(before + Tagged(api, entries), models)
            else OccursTwice(before + Tagged(api, entries), repeated.value)
  {
    models := known;
    assert before + Tagged(api, entries[..0]) == before;
    for i := 0 to |entries|
      invariant ReadSoFar(before + Tagged(api, entries[..i]), models)
    {
      var id := entries[i].id;
      TaggedSnoc(before, api, entries, i);
      ReadOne(before + Tagged(api, entries[..i]), models, Item(api, id, entries[i].value));
      if id in models {
        TwiceRemains(before + Tagged(api, entries[..i + 1]), before + Tagged(api, entries), id);
        return models, Some(id);
      }
      models := models[id := api];
    }
    assert entries[..|entries|] == entries;
    repeated := None;
  }

  lemma RecordsUnique<V>(items: seq<Item<V>>, a: map<string, string>, b: map<string, string>)
    requires Records(items, a)
    ensures Records(items, b) <==> a == b
  {
    if Records(items, b) {
      forall id ensures id in a <==> id in b {
        if id in a { var i :| 0 <= i < |items| && items[i].id == id; }
        if id in b { var i :| 0 <= i < |items| && items[i].id == id; }
      }
      forall id | id in a ensures a[id] == b[id] {
        var i :| 0 <= i < |items| && items[i].id == id;
      }
    }
  }

  // ---------- Reading back what was written ----------

  /** The entries list a group, each id once with its model. */
  ghost predicate ListsOnce(entries: seq<Entry<Model>>, group: map<string, Model>) {
    && (forall j :: 0 <= j < |entries| ==> entries[j].id in group && entries[j].value == group[entries[j].id])
    && (forall j, k :: 0 <= j < k < |entries| ==> entries[j].id != entries[k].id)
    && (forall id :: id in group ==> Lists(entries, id))
  }

  ghost predicate Lists(entries: seq<Entry<Model>>, id: string) {
    exists j :: 0 <= j < |entries| && entries[j].id == id
  }

  ghost predicate HasApi(file: seq<Group<Model>>, api: string) {
    exists g :: 0 <= g < |file| && file[g].api == api
  }

  /** The file holds the groups, in some order and each with its entries in some order. */
  ghost predicate Serializes(groups: Groups, file: seq<Group<Model>>) {
    && (forall g :: 0 <= g < |file| ==>
          file[g].api in groups && file[g].entries.Some? && ListsOnce(file[g].entries.value, groups[file[g].api]))
    && (forall g, h :: 0 <= g < h < |file| ==> file[g].api != file[h].api)
    && (forall api :: api in groups ==> HasApi(file, api))
  }

  ghost predicate Mentions(items: seq<Item<Model>>, id: string) {
    exists i :: 0 <= i < |items| && items[i].id == id
  }

  /** These items list the models of the file's APIs, each once under its API. */
  ghost predicate ListsModels(models: map<string, Model>, file: seq<Group<Model>>, items: seq<Item<Model>>) {
    && NoRepeats(items)
    && (forall i :: 0 <= i < |items| ==>
          items[i].id in models && models[items[i].id].api == items[i].api && HasApi(file, items[i].api))
    && (forall id :: id in models && HasApi(file, models[id].api) ==> Mentions(items, id))
  }

  lemma ListsOneMore(
    models: map<string, Model>, file: seq<Group<Model>>, group: Group<Model>, items: seq<Item<Model>>,
    entries: seq<Entry<Model>>)
    requires ListsModels(models, file, items) && !HasApi(file, group.api)
    requires ListsOnce(entries, OfApi(models, group.api))
    ensures ListsModels(models, file + [group], items + Tagged(group.api, entries))
  {
    var longer, more := items + Tagged(group.api, entries), file + [group];
    assert forall g :: 0 <= g < |file| ==> more[g] == file[g];
    assert more[|file|] == group;
    forall api ensures HasApi(more, api) <==> HasApi(file, api) || api == group.api {
      if HasApi(file, api) {
        var g :| 0 <= g < |file| && file[g].api == api;
        assert more[g].api == api;
      }
    }
    forall i | 0 <= i < |longer|
      ensures longer[i].id in models && models[longer[i].id].api == longer[i].api && HasApi(more, longer[i].api)
    {
      if i >= |items| {
        assert entries[i - |items|].id in OfApi(models, group.api);
      }
    }
    forall i, j | 0 <= i < j < |longer| ensures longer[i].id != longer[j].id {
      if i < |items| <= j {
        assert HasApi(file, longer[i].api) && longer[j].api == group.api;
      }
    }
    forall id | id in models && HasApi(more, models[id].api) ensures Mentions(longer, id) {
      if HasApi(file, models[id].api) {
        assert Mentions(items, id);
        var i :| 0 <= i < |items| && items[i].id == id;
        assert longer[i].id == id;
      } else {
        assert Lists(entries, id);
        var j :| 0 <= j < |entries| && entries[j].id == id;
        assert longer[|items| + j].id == id;
      }
    }
  }

  lemma NewApi(file: seq<Group<Model>>, n: nat)
    requires n < |file| && forall g, h :: 0 <= g < h < |file| ==> file[g].api != file[h].api
    ensures !HasApi(file[..n], file[n].api)
  {
  }

  /** Group g of a file lists the models of its API. */
  ghost predicate ListsGroup(models: map<string, Model>, file: seq<Group<Model>>, g: nat)
    requires g < |file|
  {
    file[g].entries.Some? && ListsOnce(file[g].entries.value, OfApi(models, file[g].api))
  }

  lemma {:induction false} FileListsModels(models: map<string, Model>, file: seq<Group<Model>>, n: nat)
    requires n <= |file| && (forall g: nat :: g < |file| ==> ListsGroup(models, file, g))
    requires forall g, h :: 0 <= g < h < |file| ==> file[g].api != file[h].api
    ensures ListsModels(models, file[..n], Items(file[..n]))
  {
    if n == 0 {
      assert file[..0] == [];
    } else {
      var init, group := file[..n - 1], file[n - 1];
      FileListsModels(models, file, n - 1);
      assert file[..n] == init + [group];
      ItemsSnoc(init, group);
      NewApi(file, n - 1);
      assert ListsGroup(models, file, n - 1);
      ListsOneMore(models, init, group, Items(init), group.entries.value);
    }
  }

  /** The structure recorded with the groups. */
  function Recorded(models: map<string, Model>): map<string, string> {
    map id | id in models :: models[id].api
  }

  lemma ListedIsRecorded(models: map<string, Model>, file: seq<Group<Model>>, items: seq<Item<Model>>)
    requires ListsModels(models, file, items) && forall id :: id in models ==> HasApi(file, models[id].api)
    ensures Records(items, Recorded(models))
  {
    forall id | id in Recorded(models) ensures exists i :: 0 <= i < |items| && items[i].id == id {
      assert HasApi(file, models[id].api) && Mentions(items, id);
    }
  }

  lemma FileIsRecorded(models: map<string, Model>, groups: Groups, file: seq<Group<Model>>)
    requires IsGrouping(models, groups) && Serializes(groups, file)
    ensures NoRepeats(Items(file)) && Records(Items(file), Recorded(models))
  {
    assert forall g: nat :: g < |file| ==> ListsGroup(models, file, g);
    FileListsModels(models, file, |file|);
    assert file[..|file|] == file;
    forall id | id in models ensures HasApi(file, models[id].api) {
      assert models[id].api in Apis(models);
    }
    ListedIsRecorded(models, file, Items(file));
  }

  /**
   * Round trip of the structure: whatever the order in which the groups of a non-empty catalogue were written,
   * reading the file back succeeds and returns the structure recorded when the groups were made.
   */
  lemma RereadGroups(models: map<string, Model>, groups: Groups, file: seq<Group<Model>>, r: Read)
    requires models != map[] && IsGrouping(models, groups) && Serializes(groups, file) && ReadsAs(file, r)
    ensures r == Structure(Recorded(models))
  {
    FileIsRecorded(models, groups, file);
    EmptyRecord(Items(file), Recorded(models));
    assert Recorded(models).Keys == models.Keys;
    RecordsUnique(Items(file), Recorded(models), r.models);
  }
}
