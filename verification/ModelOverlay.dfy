/** The model list of a provider: its baseline models overlaid with the dynamic ones, by id. */
module ModelOverlay {
  import opened Options

  datatype Model = Model(id: string, provider: string, data: string)

  /** The index of the first model with an id, or the length of the list. */
  function First(list: seq<Model>, id: string): (index: nat)
    ensures index <= |list|
    ensures index < |list| ==> list[index].id == id
    ensures forall i :: 0 <= i < index ==> list[i].id != id
  {
    if list == [] then 0
    else
      var n := |list| - 1;
      var before := First(list[..n], id);
      if before < n then before else if list[n].id == id then n else n + 1
  }

  /** The last model with an id. */
  function Last(list: seq<Model>, id: string): (r: Option<Model>)
    ensures r.Some? <==> First(list, id) < |list|
    ensures r.Some? ==> r.value in list && r.value.id == id
  {
    if list == [] then None
    else
      var n := |list| - 1;
      if list[n].id == id then Some(list[n]) else Last(list[..n], id)
  }

  /** What stands at a baseline position: the first model of an id gives way to the latest dynamic one. */
  function At(baseline: seq<Model>, dynamic: seq<Model>, i: nat): (m: Model)
    requires i < |baseline|
    ensures m.id == baseline[i].id
  {
    var id := baseline[i].id;
    if First(baseline, id) == i then Last(dynamic, id).GetOr(baseline[i]) else baseline[i]
  }

  predicate IsNew(baseline: seq<Model>, id: string) {
    First(baseline, id) == |baseline|
  }

  ghost predicate Covers(baseline: seq<Model>, list: seq<Model>, id: string) {
    exists k :: |baseline| <= k < |list| && list[k].id == id
  }

  /**
   * The baseline in its own order, each id overridden by the last dynamic model with it, then every
   * new id once, in the order of first appearance, again with the last model of that id.
   */
  ghost predicate IsOverlay(baseline: seq<Model>, dynamic: seq<Model>, list: seq<Model>) {
    && |baseline| <= |list|
    && (forall i :: 0 <= i < |baseline| ==> list[i] == At(baseline, dynamic, i))
    && (forall k :: |baseline| <= k < |list| ==>
          IsNew(baseline, list[k].id) && Last(dynamic, list[k].id) == Some(list[k]))
    && (forall j, k :: |baseline| <= j < k < |list| ==> First(dynamic, list[j].id) < First(dynamic, list[k].id))
    && (forall d :: 0 <= d < |dynamic| && IsNew(baseline, dynamic[d].id) ==> Covers(baseline, list, dynamic[d].id))
  }

  /** A first index does not move when a list grows behind it. */
  lemma FirstStays(list: seq<Model>, m: Model, id: string)
    ensures First(list, id) < |list| ==> First(list + [m], id) == First(list, id)
    ensures First(list, id) == |list| ==> First(list + [m], id) == if m.id == id then |list| else |list| + 1
    ensures Last(list + [m], id) == if m.id == id then Some(m) else Last(list, id)
  {
    assert (list + [m])[..|list|] == list;
  }

  /** An id of the baseline is found first where the baseline has it first. */
  lemma BaselineIndex(baseline: seq<Model>, dynamic: seq<Model>, list: seq<Model>, id: string)
    requires IsOverlay(baseline, dynamic, list)
    ensures !IsNew(baseline, id) ==> First(list, id) == First(baseline, id)
    ensures IsNew(baseline, id) ==> First(list, id) >= |baseline|
  {
    forall i | 0 <= i < |baseline| ensures list[i].id == baseline[i].id {
      assert list[i] == At(baseline, dynamic, i);
    }
  }

  /** A new id stands in the list once. */
  lemma OnlyOnce(baseline: seq<Model>, dynamic: seq<Model>, list: seq<Model>, j: nat, k: nat)
    requires IsOverlay(baseline, dynamic, list)
    requires |baseline| <= k < |list| && j < |list| && list[j].id == list[k].id
    ensures j == k
  {
    assert j < |baseline| ==> list[j] == At(baseline, dynamic, j);
    assert IsNew(baseline, list[k].id);
  }

  lemma NotSeenBefore(baseline: seq<Model>, dynamic: seq<Model>, list: seq<Model>, id: string)
    requires IsOverlay(baseline, dynamic, list) && First(list, id) == |list|
    ensures IsNew(baseline, id) && First(dynamic, id) == |dynamic|
  {
    BaselineIndex(baseline, dynamic, list, id);
    var d := First(dynamic, id);
    assert d < |dynamic| ==> Covers(baseline, list, dynamic[d].id);
  }

  /** One round of the loop: the model takes the place of its id, or goes to the end. */
  function Placed(list: seq<Model>, m: Model): seq<Model> {
    var index := First(list, m.id);
    if index < |list| then list[index := m] else list + [m]
  }

  lemma PlacedInBaseline(baseline: seq<Model>, dynamic: seq<Model>, list: seq<Model>, m: Model, i: nat)
    requires IsOverlay(baseline, dynamic, list) && i < |baseline|
    ensures Placed(list, m)[i] == At(baseline, dynamic + [m], i)
  {
    BaselineIndex(baseline, dynamic, list, m.id);
    assert list[i] == At(baseline, dynamic, i);
    FirstStays(dynamic, m, baseline[i].id);
  }

  lemma PlacedAmongNew(baseline: seq<Model>, dynamic: seq<Model>, list: seq<Model>, m: Model, k: nat)
    requires IsOverlay(baseline, dynamic, list) && |baseline| <= k < |list|
    ensures Placed(list, m)[k].id == list[k].id
    ensures IsNew(baseline, list[k].id) && Last(dynamic + [m], list[k].id) == Some(Placed(list, m)[k])
    ensures First(dynamic + [m], list[k].id) == First(dynamic, list[k].id) < |dynamic|
  {
    assert Last(dynamic, list[k].id) == Some(list[k]);
    FirstStays(dynamic, m, list[k].id);
    var index := First(list, m.id);
    if index < |list| && m.id == list[k].id {
      OnlyOnce(baseline, dynamic, list, index, k);
    }
  }

  lemma PlacedLast(baseline: seq<Model>, dynamic: seq<Model>, list: seq<Model>, m: Model)
    requires IsOverlay(baseline, dynamic, list) && First(list, m.id) == |list|
    ensures IsNew(baseline, m.id) && Last(dynamic + [m], m.id) == Some(m) && First(dynamic + [m], m.id) == |dynamic|
  {
    NotSeenBefore(baseline, dynamic, list, m.id);
    FirstStays(dynamic, m, m.id);
  }

  lemma PlacedCovers(baseline: seq<Model>, dynamic: seq<Model>, list: seq<Model>, m: Model, d: nat)
    requires IsOverlay(baseline, dynamic, list) && d < |dynamic| + 1 && IsNew(baseline, (dynamic + [m])[d].id)
    ensures Covers(baseline, Placed(list, m), (dynamic + [m])[d].id)
  {
    if d < |dynamic| {
      assert Covers(baseline, list, dynamic[d].id);
      var k :| |baseline| <= k < |list| && list[k].id == dynamic[d].id;
      assert Placed(list, m)[k].id == dynamic[d].id;
    } else {
      BaselineIndex(baseline, dynamic, list, m.id);
      assert Placed(list, m)[First(list, m.id)].id == m.id;
    }
  }

  /** When a new id of the next list first appeared: where it did before, or just now. */
  function AppearedAt(dynamic: seq<Model>, list: seq<Model>, k: nat): nat {
    if k < |list| then First(dynamic, list[k].id) else |dynamic|
  }

  lemma PlacedNew(baseline: seq<Model>, dynamic: seq<Model>, list: seq<Model>, m: Model, k: nat)
    requires IsOverlay(baseline, dynamic, list) && |baseline| <= k < |Placed(list, m)|
    ensures IsNew(baseline, Placed(list, m)[k].id)
    ensures Last(dynamic + [m], Placed(list, m)[k].id) == Some(Placed(list, m)[k])
    ensures First(dynamic + [m], Placed(list, m)[k].id) == AppearedAt(dynamic, list, k)
    ensures k < |list| ==> AppearedAt(dynamic, list, k) < |dynamic|
  {
    if k < |list| {
      PlacedAmongNew(baseline, dynamic, list, m, k);
    } else {
      PlacedLast(baseline, dynamic, list, m);
    }
  }

  lemma PlacedInOrder(baseline: seq<Model>, dynamic: seq<Model>, list: seq<Model>, m: Model, j: nat, k: nat)
    requires IsOverlay(baseline, dynamic, list) && |baseline| <= j < k < |Placed(list, m)|
    ensures First(dynamic + [m], Placed(list, m)[j].id) < First(dynamic + [m], Placed(list, m)[k].id)
  {
    PlacedNew(baseline, dynamic, list, m, j);
    PlacedNew(baseline, dynamic, list, m, k);
  }

  lemma PlacedIsOverlay(baseline: seq<Model>, dynamic: seq<Model>, list: seq<Model>, m: Model)
    requires IsOverlay(baseline, dynamic, list)
    ensures IsOverlay(baseline, dynamic + [m], Placed(list, m))
  {
    var next, seen := Placed(list, m), dynamic + [m];
    forall i | 0 <= i < |baseline| ensures next[i] == At(baseline, seen, i) {
      PlacedInBaseline(baseline, dynamic, list, m, i);
    }
    forall k | |baseline| <= k < |next| ensures IsNew(baseline, next[k].id) && Last(seen, next[k].id) == Some(next[k]) {
      PlacedNew(baseline, dynamic, list, m, k);
    }
    forall j, k | |baseline| <= j < k < |next| ensures First(seen, next[j].id) < First(seen, next[k].id) {
      PlacedInOrder(baseline, dynamic, list, m, j, k);
    }
    forall d | 0 <= d < |seen| && IsNew(baseline, seen[d].id) ensures Covers(baseline, next, seen[d].id) {
      PlacedCovers(baseline, dynamic, list, m, d);
    }
  }

  /** `getModels` */
  method CurrentModels(baselineModels: seq<Model>, dynamicModels: seq<Model>) returns (merged: seq<Model>)
    ensures IsOverlay(baselineModels, dynamicModels, merged)
  {
    merged := baselineModels;
    for n := 0 to |dynamicModels|
      invariant IsOverlay(baselineModels, dynamicModels[..n], merged)
    {
      var model := dynamicModels[n];
      assert dynamicModels[..n + 1] == dynamicModels[..n] + [model];
      PlacedIsOverlay(baselineModels, dynamicModels[..n], merged, model);
      var index := First(merged, model.id);
      if index < |merged| {
        merged := merged[index := model];
      } else {
        merged := merged + [model];
      }
    }
    assert dynamicModels[..|dynamicModels|] == dynamicModels;
  }

  /** There is only one such list. */
  lemma {:induction false} OverlayIsUnique(baseline: seq<Model>, dynamic: seq<Model>, a: seq<Model>, b: seq<Model>)
    requires IsOverlay(baseline, dynamic, a) && IsOverlay(baseline, dynamic, b)
    ensures a == b
  {
    SamePrefix(baseline, dynamic, a, b, |a|);
    SamePrefix(baseline, dynamic, b, a, |b|);
  }

  lemma {:induction false} SamePrefix(baseline: seq<Model>, dynamic: seq<Model>, a: seq<Model>, b: seq<Model>, n: nat)
    requires IsOverlay(baseline, dynamic, a) && IsOverlay(baseline, dynamic, b) && |baseline| <= n <= |a|
    ensures n <= |b| && a[..n] == b[..n]
  {
    if n == |baseline| {
      forall i | 0 <= i < n ensures a[i] == b[i] {
        assert a[i] == At(baseline, dynamic, i);
      }
    } else {
      SamePrefix(baseline, dynamic, a, b, n - 1);
      NextAgrees(baseline, dynamic, a, b, n - 1);
    }
  }

  lemma NextAgrees(baseline: seq<Model>, dynamic: seq<Model>, a: seq<Model>, b: seq<Model>, n: nat)
    requires IsOverlay(baseline, dynamic, a) && IsOverlay(baseline, dynamic, b)
    requires |baseline| <= n < |a| && n <= |b| && a[..n] == b[..n]
    ensures n < |b| && a[n] == b[n]
  {
    var j := NotEarlier(baseline, dynamic, a, b, n);
    var k := NotEarlier(baseline, dynamic, b, a, n);
  }

  /** The next id of one list stands in the other, and not before the same position. */
  lemma NotEarlier(baseline: seq<Model>, dynamic: seq<Model>, a: seq<Model>, b: seq<Model>, n: nat) returns (j: nat)
    requires IsOverlay(baseline, dynamic, a) && IsOverlay(baseline, dynamic, b)
    requires |baseline| <= n <= |a| && n <= |b| && a[..n] == b[..n]
    ensures n < |a| ==> n <= j < |b| && b[j] == a[n]
  {
    j := n;
    if n < |a| {
      var id := a[n].id;
      var d := First(dynamic, id);
      assert IsNew(baseline, dynamic[d].id);
      assert Covers(baseline, b, dynamic[d].id);
      j :| |baseline| <= j < |b| && b[j].id == id;
      if j < n {
        assert a[j] == a[..n][j] == b[..n][j] == b[j];
        OnlyOnce(baseline, dynamic, a, j, n);
      }
    }
  }

  ghost predicate UniqueIds(list: seq<Model>) {
    forall i, j :: 0 <= i < j < |list| ==> list[i].id != list[j].id
  }

  /** Ids in the list are unique exactly when they are in the baseline, whatever the dynamic models hold. */
  lemma OverlayIsUniqueById(baseline: seq<Model>, dynamic: seq<Model>, list: seq<Model>)
    requires IsOverlay(baseline, dynamic, list)
    ensures UniqueIds(list) <==> UniqueIds(baseline)
  {
    forall i | 0 <= i < |baseline| ensures list[i].id == baseline[i].id {
      assert list[i] == At(baseline, dynamic, i);
    }
    if UniqueIds(baseline) {
      forall i, j | 0 <= i < j < |list| ensures list[i].id != list[j].id {
        if j >= |baseline| && list[i].id == list[j].id {
          OnlyOnce(baseline, dynamic, list, i, j);
        }
      }
    } else {
      var i, j :| 0 <= i < j < |baseline| && baseline[i].id == baseline[j].id;
      assert list[i].id == list[j].id;
    }
  }

  /** A list read as a map from ids, later models replacing earlier ones. */
  function ById(list: seq<Model>): map<string, Model> {
    if list == [] then map[] else ById(list[..|list| - 1])[list[|list| - 1].id := list[|list| - 1]]
  }

  lemma {:induction false} ByIdIsLast(list: seq<Model>, id: string)
    ensures if id in ById(list) then Last(list, id) == Some(ById(list)[id]) else Last(list, id).None?
  {
    if list != [] {
      ByIdIsLast(list[..|list| - 1], id);
    }
  }

  lemma UniqueIsLast(list: seq<Model>, id: string)
    requires UniqueIds(list) && First(list, id) < |list|
    ensures Last(list, id) == Some(list[First(list, id)])
  {
    var m := Last(list, id).value;
    var k: nat :| k < |list| && list[k] == m;
    assert k == First(list, id);
  }

  /** With unique ids the overlay is the override of maps: what is dynamic replaces what is not. */
  lemma OverlayOverrides(baseline: seq<Model>, dynamic: seq<Model>, list: seq<Model>)
    requires IsOverlay(baseline, dynamic, list) && UniqueIds(baseline)
    ensures ById(list) == ById(baseline) + ById(dynamic)
  {
    OverlayIsUniqueById(baseline, dynamic, list);
    forall id
      ensures id in ById(list) <==> id in ById(baseline) || id in ById(dynamic)
      ensures id in ById(list) ==>
              ById(list)[id] == if id in ById(dynamic) then ById(dynamic)[id] else ById(baseline)[id]
    {
      OverrideAt(baseline, dynamic, list, id);
    }
  }

  lemma OverrideAt(baseline: seq<Model>, dynamic: seq<Model>, list: seq<Model>, id: string)
    requires IsOverlay(baseline, dynamic, list) && UniqueIds(baseline) && UniqueIds(list)
    ensures id in ById(list) <==> id in ById(baseline) || id in ById(dynamic)
    ensures id in ById(list) ==> ById(list)[id] == if id in ById(dynamic) then ById(dynamic)[id] else ById(baseline)[id]
  {
    ByIdIsLast(list, id);
    ByIdIsLast(baseline, id);
    ByIdIsLast(dynamic, id);
    LookupIsOverridden(baseline, dynamic, list, id);
    if First(list, id) < |list| {
      UniqueIsLast(list, id);
    }
    if First(baseline, id) < |baseline| {
      UniqueIsLast(baseline, id);
    }
  }

  /** Looking an id up finds the last dynamic model with it, else the first of the baseline. */
  lemma LookupIsOverridden(baseline: seq<Model>, dynamic: seq<Model>, list: seq<Model>, id: string)
    requires IsOverlay(baseline, dynamic, list)
    ensures First(list, id) == |list| <==> IsNew(baseline, id) && Last(dynamic, id).None?
    ensures First(list, id) < |list| && Last(dynamic, id).Some? ==> list[First(list, id)] == Last(dynamic, id).value
    ensures First(list, id) < |list| && Last(dynamic, id).None? ==>
            !IsNew(baseline, id) && list[First(list, id)] == baseline[First(baseline, id)]
  {
    BaselineIndex(baseline, dynamic, list, id);
    var found := First(list, id);
    if !IsNew(baseline, id) {
      assert list[found] == At(baseline, dynamic, found);
    } else if found < |list| {
      assert Last(dynamic, list[found].id) == Some(list[found]);
    } else {
      NotSeenBefore(baseline, dynamic, list, id);
    }
  }
}
