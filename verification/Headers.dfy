/** Merging request headers whose names compare without regard to case. */
module Headers {
  import opened Options
  import opened Sequences

  /** A header; a None value suppresses the provider's default. */
  datatype Header = Header(name: string, value: Option<string>)

  /** An object of headers: its properties in insertion order, with distinct exact names. */
  type Object = seq<Header>

  /** How names are folded; `toLowerCase` in the source, any folding here. */
  type Fold = string -> string

  function Names(fold: Fold, hs: Object): set<string> {
    if hs == [] then {} else Names(fold, hs[..|hs| - 1]) + {fold(hs[|hs| - 1].name)}
  }

  /** The headers whose folded names are not among `names`. */
  function Without(fold: Fold, hs: Object, names: set<string>): Object {
    if hs == [] then []
    else Without(fold, hs[..|hs| - 1], names) + if fold(hs[|hs| - 1].name) in names then [] else [hs[|hs| - 1]]
  }

  /** Of several headers with one folded name, the last, in the place of the last. */
  function LastWins(fold: Fold, hs: Object): Object {
    if hs == [] then []
    else
      var last := hs[|hs| - 1];
      Without(fold, LastWins(fold, hs[..|hs| - 1]), {fold(last.name)}) + [last]
  }

  ghost predicate CaseUnique(fold: Fold, hs: Object) {
    forall i, j :: 0 <= i < j < |hs| ==> fold(hs[i].name) != fold(hs[j].name)
  }

  /** The value a name stands for, if the object has it: its last header under that folded name. */
  function Value(fold: Fold, hs: Object, name: string): Option<Option<string>> {
    if hs == [] then None
    else if fold(hs[|hs| - 1].name) == name then Some(hs[|hs| - 1].value)
    else Value(fold, hs[..|hs| - 1], name)
  }

  function Merged(fold: Fold, base: Object, override: Object): Object {
    Without(fold, base, Names(fold, override)) + LastWins(fold, override)
  }

  function Merge(fold: Fold, base: Option<Object>, override: Option<Object>): Option<Object> {
    if base.None? && override.None? then None else Some(Merged(fold, base.GetOr([]), override.GetOr([])))
  }

  // ---------- Removing names ----------

  lemma {:induction false} WithoutConcat(fold: Fold, a: Object, b: Object, names: set<string>)
    ensures Without(fold, a + b, names) == Without(fold, a, names) + Without(fold, b, names)
  {
    if b == [] {
      assert a + b == a;
    } else {
      assert (a + b)[..|a + b| - 1] == a + b[..|b| - 1];
      WithoutConcat(fold, a, b[..|b| - 1], names);
    }
  }

  lemma {:induction false} WithoutTwice(fold: Fold, hs: Object, a: set<string>, b: set<string>)
    ensures Without(fold, Without(fold, hs, a), b) == Without(fold, hs, a + b)
  {
    if hs != [] {
      var init, last := hs[..|hs| - 1], hs[|hs| - 1];
      WithoutTwice(fold, init, a, b);
      var kept := if fold(last.name) in a then [] else [last];
      WithoutConcat(fold, Without(fold, init, a), kept, b);
      WithoutOne(fold, last, b);
    }
  }

  lemma WithoutOne(fold: Fold, h: Header, names: set<string>)
    ensures Without(fold, [h], names) == if fold(h.name) in names then [] else [h]
  {
    assert [h][..0] == [];
  }

  lemma {:induction false} WithoutNames(fold: Fold, hs: Object, names: set<string>)
    ensures Names(fold, Without(fold, hs, names)) == Names(fold, hs) - names
  {
    if hs != [] {
      var init, last := hs[..|hs| - 1], hs[|hs| - 1];
      WithoutNames(fold, init, names);
      NamesSnoc(fold, Without(fold, init, names), last);
      assert Without(fold, init, names) + [] == Without(fold, init, names);
    }
  }

  lemma {:induction false} NamesConcat(fold: Fold, a: Object, b: Object)
    ensures Names(fold, a + b) == Names(fold, a) + Names(fold, b)
  {
    if b == [] {
      assert a + b == a;
    } else {
      assert (a + b)[..|a + b| - 1] == a + b[..|b| - 1];
      NamesConcat(fold, a, b[..|b| - 1]);
    }
  }

  lemma NamesSnoc(fold: Fold, hs: Object, h: Header)
    ensures Names(fold, hs + [h]) == Names(fold, hs) + {fold(h.name)}
  {
    assert (hs + [h])[..|hs|] == hs;
  }

  lemma {:induction false} NamesHave(fold: Fold, hs: Object, i: nat)
    requires i < |hs|
    ensures fold(hs[i].name) in Names(fold, hs)
  {
    if i < |hs| - 1 {
      NamesHave(fold, hs[..|hs| - 1], i);
    }
  }

  lemma {:induction false} LastWinsNames(fold: Fold, hs: Object)
    ensures Names(fold, LastWins(fold, hs)) == Names(fold, hs)
  {
    if hs != [] {
      var init, last := hs[..|hs| - 1], hs[|hs| - 1];
      LastWinsNames(fold, init);
      WithoutNames(fold, LastWins(fold, init), {fold(last.name)});
      NamesSnoc(fold, Without(fold, LastWins(fold, init), {fold(last.name)}), last);
    }
  }

  /** Keeping the last of each name and removing names commute. */
  lemma {:induction false} LastWinsWithout(fold: Fold, hs: Object, names: set<string>)
    ensures LastWins(fold, Without(fold, hs, names)) == Without(fold, LastWins(fold, hs), names)
  {
    if hs != [] {
      var init, last := hs[..|hs| - 1], hs[|hs| - 1];
      var kept := LastWins(fold, init);
      LastWinsWithout(fold, init, names);
      if fold(last.name) !in names {
        ReplacementStays(fold, kept, last, names);
        LastWinsSnoc(fold, Without(fold, init, names), last);
      } else {
        ReplacementGoes(fold, kept, last, names);
        assert Without(fold, init, names) + [] == Without(fold, init, names);
      }
    }
  }

  lemma LastWinsSnoc(fold: Fold, hs: Object, last: Header)
    ensures LastWins(fold, hs + [last]) == Without(fold, LastWins(fold, hs), {fold(last.name)}) + [last]
  {
    assert (hs + [last])[..|hs|] == hs;
  }

  /** Removing names of which the replaced one is one removes the replacement too. */
  lemma ReplacementGoes(fold: Fold, kept: Object, last: Header, names: set<string>)
    requires fold(last.name) in names
    ensures Without(fold, Without(fold, kept, {fold(last.name)}) + [last], names) == Without(fold, kept, names)
  {
    var n := {fold(last.name)};
    WithoutConcat(fold, Without(fold, kept, n), [last], names);
    WithoutOne(fold, last, names);
    WithoutTwice(fold, kept, n, names);
    assert n + names == names;
    assert Without(fold, kept, names) + [] == Without(fold, kept, names);
  }

  lemma WithoutCommutes(fold: Fold, hs: Object, a: set<string>, b: set<string>)
    ensures Without(fold, Without(fold, hs, a), b) == Without(fold, Without(fold, hs, b), a)
  {
    WithoutTwice(fold, hs, a, b);
    WithoutTwice(fold, hs, b, a);
    assert a + b == b + a;
  }

  /** Removing other names leaves the replacement, in the place of what is left. */
  lemma ReplacementStays(fold: Fold, kept: Object, last: Header, names: set<string>)
    requires fold(last.name) !in names
    ensures var n := {fold(last.name)};
            Without(fold, Without(fold, kept, n) + [last], names) ==
              Without(fold, Without(fold, kept, names), n) + [last]
  {
    var n := {fold(last.name)};
    WithoutConcat(fold, Without(fold, kept, n), [last], names);
    WithoutOne(fold, last, names);
    WithoutCommutes(fold, kept, n, names);
  }

  lemma {:induction false} LastWinsConcat(fold: Fold, a: Object, b: Object)
    ensures LastWins(fold, a + b) == Without(fold, LastWins(fold, a), Names(fold, b)) + LastWins(fold, b)
  {
    if b == [] {
      assert a + b == a;
      WithoutNothing(fold, LastWins(fold, a));
    } else {
      var init, last := b[..|b| - 1], b[|b| - 1];
      var n := {fold(last.name)};
      assert (a + b)[..|a + b| - 1] == a + init;
      LastWinsConcat(fold, a, init);
      WithoutConcat(fold, Without(fold, LastWins(fold, a), Names(fold, init)), LastWins(fold, init), n);
      WithoutTwice(fold, LastWins(fold, a), Names(fold, init), n);
      Assoc(Without(fold, LastWins(fold, a), Names(fold, b)), Without(fold, LastWins(fold, init), n), [last]);
    }
  }

  lemma {:induction false} WithoutNothing(fold: Fold, hs: Object)
    ensures Without(fold, hs, {}) == hs
  {
    if hs != [] {
      WithoutNothing(fold, hs[..|hs| - 1]);
      assert hs == hs[..|hs| - 1] + [hs[|hs| - 1]];
    }
  }

  lemma {:induction false} LastWinsTwice(fold: Fold, hs: Object)
    ensures LastWins(fold, LastWins(fold, hs)) == LastWins(fold, hs)
  {
    if hs != [] {
      var init, last := hs[..|hs| - 1], hs[|hs| - 1];
      var rest := Without(fold, LastWins(fold, init), {fold(last.name)});
      LastWinsTwice(fold, init);
      LastWinsWithout(fold, LastWins(fold, init), {fold(last.name)});
      WithoutTwice(fold, LastWins(fold, init), {fold(last.name)}, {fold(last.name)});
      assert (rest + [last])[..|rest|] == rest;
      assert {fold(last.name)} + {fold(last.name)} == {fold(last.name)};
    }
  }

  // ---------- The laws of merging ----------

  lemma MergedLastWins(fold: Fold, b: Object, c: Object)
    ensures LastWins(fold, Merged(fold, b, c)) == Merged(fold, LastWins(fold, b), c)
  {
    LastWinsConcat(fold, Without(fold, b, Names(fold, c)), LastWins(fold, c));
    LastWinsTwice(fold, c);
    LastWinsNames(fold, c);
    LastWinsWithout(fold, b, Names(fold, c));
    WithoutTwice(fold, LastWins(fold, b), Names(fold, c), Names(fold, c));
    assert Names(fold, c) + Names(fold, c) == Names(fold, c);
  }

  lemma MergedTwice(fold: Fold, a: Object, b: Object, c: Object)
    ensures Merged(fold, Merged(fold, a, b), c) ==
            Without(fold, a, Names(fold, b) + Names(fold, c)) + Merged(fold, LastWins(fold, b), c)
  {
    var nb, nc := Names(fold, b), Names(fold, c);
    WithoutConcat(fold, Without(fold, a, nb), LastWins(fold, b), nc);
    WithoutTwice(fold, a, nb, nc);
    Assoc(Without(fold, a, nb + nc), Without(fold, LastWins(fold, b), nc), LastWins(fold, c));
  }

  lemma MergedNames(fold: Fold, b: Object, c: Object)
    ensures Names(fold, Merged(fold, b, c)) == Names(fold, b) + Names(fold, c)
  {
    NamesConcat(fold, Without(fold, b, Names(fold, c)), LastWins(fold, c));
    WithoutNames(fold, b, Names(fold, c));
    LastWinsNames(fold, c);
  }

  lemma MergedAssociative(fold: Fold, a: Object, b: Object, c: Object)
    ensures Merged(fold, Merged(fold, a, b), c) == Merged(fold, a, Merged(fold, b, c))
  {
    MergedTwice(fold, a, b, c);
    MergedNames(fold, b, c);
    MergedLastWins(fold, b, c);
  }

  lemma MergedWithNothing(fold: Fold, hs: Object)
    ensures Merged(fold, hs, []) == hs
  {
    WithoutNothing(fold, hs);
    assert hs + [] == hs;
  }

  /**
   * Layering is independent of grouping: on all inputs, absent objects and repeated names included, even the
   * order of the properties is the same.
   */
  lemma MergeIsAssociative(fold: Fold, a: Option<Object>, b: Option<Object>, c: Option<Object>)
    ensures Merge(fold, Merge(fold, a, b), c) == Merge(fold, a, Merge(fold, b, c))
  {
    MergedAssociative(fold, a.GetOr([]), b.GetOr([]), c.GetOr([]));
    if a.None? && b.None? {
      MergedWithNothing(fold, []);
    }
    if b.None? && c.None? {
      MergedWithNothing(fold, a.GetOr([]));
      MergedWithNothing(fold, []);
    }
  }

  lemma {:induction false} ValueConcat(fold: Fold, a: Object, b: Object, name: string)
    ensures Value(fold, a + b, name) == if name in Names(fold, b) then Value(fold, b, name) else Value(fold, a, name)
    ensures Value(fold, b, name).Some? <==> name in Names(fold, b)
  {
    if b == [] {
      assert a + b == a;
    } else {
      var init, last := b[..|b| - 1], b[|b| - 1];
      assert (a + b)[..|a + b| - 1] == a + init;
      ValueConcat(fold, a, init, name);
    }
  }

  lemma {:induction false} ValueWithout(fold: Fold, hs: Object, names: set<string>, name: string)
    requires name !in names
    ensures Value(fold, Without(fold, hs, names), name) == Value(fold, hs, name)
  {
    if hs != [] {
      var init, last := hs[..|hs| - 1], hs[|hs| - 1];
      ValueWithout(fold, init, names, name);
      if fold(last.name) !in names {
        assert (Without(fold, init, names) + [last])[..|Without(fold, init, names)|] == Without(fold, init, names);
      } else {
        assert Without(fold, init, names) + [] == Without(fold, init, names);
      }
    }
  }

  lemma {:induction false} ValueLastWins(fold: Fold, hs: Object, name: string)
    ensures Value(fold, LastWins(fold, hs), name) == Value(fold, hs, name)
  {
    if hs != [] {
      var init, last := hs[..|hs| - 1], hs[|hs| - 1];
      var rest := Without(fold, LastWins(fold, init), {fold(last.name)});
      ValueLastWins(fold, init, name);
      assert (rest + [last])[..|rest|] == rest;
      if fold(last.name) != name {
        ValueWithout(fold, LastWins(fold, init), {fold(last.name)}, name);
      }
    }
  }

  /** A merge is the right-biased override of the two, read as maps keyed by folded name; suppressors are kept. */
  lemma MergeOverrides(fold: Fold, base: Object, override: Object, name: string)
    ensures Value(fold, Merged(fold, base, override), name) ==
            if Value(fold, override, name).Some? then Value(fold, override, name) else Value(fold, base, name)
  {
    LastWinsNames(fold, override);
    ValueConcat(fold, Without(fold, base, Names(fold, override)), LastWins(fold, override), name);
    ValueConcat(fold, [], override, name);
    ValueLastWins(fold, override, name);
    if name !in Names(fold, override) {
      ValueWithout(fold, base, Names(fold, override), name);
    }
  }

  lemma CaseUniqueConcat(fold: Fold, a: Object, b: Object)
    requires CaseUnique(fold, a) && CaseUnique(fold, b) && Names(fold, a) !! Names(fold, b)
    ensures CaseUnique(fold, a + b)
  {
    forall i, j | 0 <= i < j < |a + b| ensures fold((a + b)[i].name) != fold((a + b)[j].name) {
      if i < |a| <= j {
        NamesHave(fold, a, i);
        NamesHave(fold, b, j - |a|);
      }
    }
  }

  lemma UniqueLast(fold: Fold, hs: Object)
    requires CaseUnique(fold, hs) && hs != []
    ensures fold(hs[|hs| - 1].name) !in Names(fold, hs[..|hs| - 1])
  {
    NamesAre(fold, hs[..|hs| - 1], fold(hs[|hs| - 1].name));
  }

  lemma {:induction false} NamesAre(fold: Fold, hs: Object, name: string)
    ensures name in Names(fold, hs) ==> exists i :: 0 <= i < |hs| && fold(hs[i].name) == name
  {
    if hs != [] {
      NamesAre(fold, hs[..|hs| - 1], name);
    }
  }

  lemma {:induction false} CaseUniqueWithout(fold: Fold, hs: Object, names: set<string>)
    requires CaseUnique(fold, hs)
    ensures CaseUnique(fold, Without(fold, hs, names))
  {
    if hs != [] {
      var init, last := hs[..|hs| - 1], hs[|hs| - 1];
      assert CaseUnique(fold, init);
      CaseUniqueWithout(fold, init, names);
      WithoutNames(fold, init, names);
      UniqueLast(fold, hs);
      CaseUniqueConcat(fold, Without(fold, init, names), if fold(last.name) in names then [] else [last]);
    }
  }

  lemma {:induction false} CaseUniqueLastWins(fold: Fold, hs: Object)
    ensures CaseUnique(fold, LastWins(fold, hs))
  {
    if hs != [] {
      var init, last := hs[..|hs| - 1], hs[|hs| - 1];
      CaseUniqueLastWins(fold, init);
      CaseUniqueWithout(fold, LastWins(fold, init), {fold(last.name)});
      WithoutNames(fold, LastWins(fold, init), {fold(last.name)});
      CaseUniqueConcat(fold, Without(fold, LastWins(fold, init), {fold(last.name)}), [last]);
    }
  }

  /** Only the base can bring in two spellings of one name. */
  lemma MergeKeepsCaseUnique(fold: Fold, base: Object, override: Object)
    requires CaseUnique(fold, base)
    ensures CaseUnique(fold, Merged(fold, base, override))
  {
    CaseUniqueWithout(fold, base, Names(fold, override));
    CaseUniqueLastWins(fold, override);
    WithoutNames(fold, base, Names(fold, override));
    LastWinsNames(fold, override);
    CaseUniqueConcat(fold, Without(fold, base, Names(fold, override)), LastWins(fold, override));
  }

  lemma WithoutSnoc(fold: Fold, hs: Object, h: Header, names: set<string>)
    ensures Without(fold, hs + [h], names) ==
            if fold(h.name) in names then Without(fold, hs, names) else Without(fold, hs, names) + [h]
  {
    assert (hs + [h])[..|hs|] == hs;
  }

  lemma {:induction false} WithoutKeepsOrder(fold: Fold, hs: Object, names: set<string>)
    ensures Sub(Without(fold, hs, names), hs)
  {
    if hs != [] {
      var init, last := hs[..|hs| - 1], hs[|hs| - 1];
      WithoutKeepsOrder(fold, init, names);
      WithoutSnoc(fold, init, last, names);
      assert init + [last] == hs;
      SubStep(Without(fold, init, names), init, last, Without(fold, hs, names), hs);
    }
  }

  lemma {:induction false} LastWinsKeepsOrder(fold: Fold, hs: Object)
    ensures Sub(LastWins(fold, hs), hs)
  {
    if hs != [] {
      var init, last := hs[..|hs| - 1], hs[|hs| - 1];
      var before := LastWins(fold, init);
      LastWinsKeepsOrder(fold, init);
      WithoutKeepsOrder(fold, before, {fold(last.name)});
      SubTrans(Without(fold, before, {fold(last.name)}), before, init);
      assert init + [last] == hs;
      SubStep(Without(fold, before, {fold(last.name)}), init, last, LastWins(fold, hs), hs);
    }
  }

  /**
   * Merging gives nothing only if there is nothing to merge. Otherwise the result is what is kept of the base, in its
   * order, followed by what is added from the override, in its order, and a name means what the override says of it,
   * or else what the base says; an absent object says nothing.
   */
  lemma MergeExactly(fold: Fold, base: Option<Object>, override: Option<Object>) returns (kept: Object, added: Object)
    ensures Merge(fold, base, override).None? <==> base.None? && override.None?
    ensures Merge(fold, base, override).Some? ==>
              Merge(fold, base, override).value == kept + added &&
              Sub(kept, if base.Some? then base.value else []) &&
              Sub(added, if override.Some? then override.value else [])
    ensures forall name :: Merge(fold, base, override).Some? ==>
              Value(fold, Merge(fold, base, override).value, name) ==
                if override.Some? && Value(fold, override.value, name).Some? then Value(fold, override.value, name)
                else if base.Some? then Value(fold, base.value, name) else None
  {
    var a, b := base.GetOr([]), override.GetOr([]);
    kept, added := Without(fold, a, Names(fold, b)), LastWins(fold, b);
    WithoutKeepsOrder(fold, a, Names(fold, b));
    LastWinsKeepsOrder(fold, b);
    forall name
      ensures Value(fold, Merged(fold, a, b), name) ==
              if Value(fold, b, name).Some? then Value(fold, b, name) else Value(fold, a, name)
    {
      MergeOverrides(fold, a, b, name);
    }
  }

  // ---------- The loops ----------

  /** `delete` for every existing property that folds to `name`. */
  method DeleteName(fold: Fold, merged: Object, name: string) returns (r: Object)
    ensures r == Without(fold, merged, {name})
  {
    r := [];
    for i := 0 to |merged|
      invariant r == Without(fold, merged[..i], {name})
    {
      assert merged[..i + 1][..i] == merged[..i];
      if fold(merged[i].name) != name {
        r := r + [merged[i]];
      }
    }
    assert merged[..|merged|] == merged;
  }

  method MergeHeaders(fold: Fold, base: Option<Object>, override: Option<Object>) returns (r: Option<Object>)
    ensures r == Merge(fold, base, override)
  {
    if base.None? && override.None? {
      return None;
    }
    var merged, entries := base.GetOr([]), override.GetOr([]);
    ghost var was := merged;
    MergedWithNothing(fold, was);
    for i := 0 to |entries|
      invariant merged == Merged(fold, was, entries[..i])
    {
      var h := entries[i];
      var lowerName := fold(h.name);
      MergedSnoc(fold, was, entries[..i], h);
      assert entries[..i + 1] == entries[..i] + [h];
      merged := DeleteName(fold, merged, lowerName);
      merged := merged + [h];
    }
    assert entries[..|entries|] == entries;
    r := Some(merged);
  }

  lemma MergedSnoc(fold: Fold, base: Object, override: Object, h: Header)
    ensures Merged(fold, base, override + [h]) == Without(fold, Merged(fold, base, override), {fold(h.name)}) + [h]
  {
    var n := {fold(h.name)};
    assert (override + [h])[..|override|] == override;
    NamesSnoc(fold, override, h);
    WithoutConcat(fold, Without(fold, base, Names(fold, override)), LastWins(fold, override), n);
    WithoutTwice(fold, base, Names(fold, override), n);
    Assoc(Without(fold, base, Names(fold, override) + n), Without(fold, LastWins(fold, override), n), [h]);
  }
}
