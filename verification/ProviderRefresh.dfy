/**
 * Refreshing the dynamic models of a provider. A refresh runs in pieces, from one await to the next,
 * and any number of calls may come in between; callers share the refresh that is in flight.
 */
module ProviderRefresh {
  import opened Options
  import opened Sequences
  import opened ModelOverlay

  /** What a refresh that has started is waiting for. */
  datatype Stage = Reading(allowNetwork: bool) | Fetching | Writing(models: seq<Model>)

  /** `slot` is the promise that callers share; `running` are the refreshes that have not finished. */
  datatype Refresh = Refresh(dynamicModels: seq<Model>, slot: Option<nat>, running: map<nat, Stage>, started: nat)

  datatype Event =
    | Call(allowNetwork: bool, readThrows: bool)
    | ReadDone(refresh: nat, stored: Option<seq<Model>>, aborted: bool)
    | ReadFailed(refresh: nat)
    | FetchDone(refresh: nat, fetched: seq<Model>, aborted: bool)
    | FetchFailed(refresh: nat)
    | WriteDone(refresh: nat)

  const INITIAL := Refresh([], None, map[], 0)

  function OfProvider(models: seq<Model>, provider: string): seq<Model> {
    if models == [] then []
    else
      OfProvider(models[..|models| - 1], provider) +
      if models[|models| - 1].provider == provider then [models[|models| - 1]] else []
  }

  /** The `finally` clause. */
  function Finish(s: Refresh, refresh: nat): Refresh {
    s.(slot := None, running := s.running - {refresh})
  }

  /**
   * A call that finds the slot empty starts a refresh, up to its first await. When reading the store throws
   * before there is a promise to await, the refresh has finished before its promise is put in the slot.
   */
  function StartOrShare(s: Refresh, allowNetwork: bool, readThrows: bool): Refresh {
    if s.slot.Some? then s
    else
      var running := if readThrows then s.running else s.running[s.started := Reading(allowNetwork)];
      Refresh(s.dynamicModels, Some(s.started), running, s.started + 1)
  }

  function AfterRead(s: Refresh, provider: string, refresh: nat, stored: Option<seq<Model>>, aborted: bool): Refresh
    requires refresh in s.running && s.running[refresh].Reading?
  {
    var s' := if stored.Some? then s.(dynamicModels := OfProvider(stored.value, provider)) else s;
    if !s.running[refresh].allowNetwork || aborted then Finish(s', refresh)
    else s'.(running := s.running[refresh := Fetching])
  }

  function AfterFetch(s: Refresh, refresh: nat, fetched: seq<Model>, aborted: bool): Refresh {
    if aborted then Finish(s, refresh)
    else s.(dynamicModels := fetched, running := s.running[refresh := Writing(fetched)])
  }

  /** An event for a refresh that does not wait for it does not occur. */
  predicate Occurs(s: Refresh, e: Event) {
    match e
    case Call(_, _) => true
    case ReadDone(n, _, _) => n in s.running && s.running[n].Reading?
    case ReadFailed(n) => n in s.running && s.running[n].Reading?
    case FetchDone(n, _, _) => n in s.running && s.running[n].Fetching?
    case FetchFailed(n) => n in s.running && s.running[n].Fetching?
    case WriteDone(n) => n in s.running && s.running[n].Writing?
  }

  function Act(s: Refresh, provider: string, e: Event): Refresh {
    if !Occurs(s, e) then s
    else
      match e
      case Call(allowNetwork, readThrows) => StartOrShare(s, allowNetwork, readThrows)
      case ReadDone(n, stored, aborted) => AfterRead(s, provider, n, stored, aborted)
      case ReadFailed(n) => Finish(s, n)
      case FetchDone(n, fetched, aborted) => AfterFetch(s, n, fetched, aborted)
      case FetchFailed(n) => Finish(s, n)
      case WriteDone(n) => Finish(s, n)
  }

  function ActAll(s: Refresh, provider: string, events: seq<Event>): Refresh {
    if events == [] then s else Act(ActAll(s, provider, events[..|events| - 1]), provider, events[|events| - 1])
  }

  /** At most one refresh runs, its promise is the one in the slot, and what it writes is what is listed. */
  ghost predicate SingleFlight(s: Refresh) {
    && (forall n :: n in s.running ==> s.slot == Some(n))
    && (forall n :: n in s.running && s.running[n].Writing? ==> s.running[n].models == s.dynamicModels)
    && (s.slot.Some? ==> s.slot.value < s.started)
  }

  lemma ActKeepsSingleFlight(s: Refresh, provider: string, e: Event)
    requires SingleFlight(s)
    ensures SingleFlight(Act(s, provider, e))
  {
  }

  /** Under every interleaving at most one refresh, and with it at most one fetch, is in flight. */
  lemma {:induction false} AlwaysSingleFlight(provider: string, events: seq<Event>)
    ensures SingleFlight(ActAll(INITIAL, provider, events))
    ensures |ActAll(INITIAL, provider, events).running| <= 1
  {
    var s := ActAll(INITIAL, provider, events);
    if events != [] {
      var before := events[..|events| - 1];
      AlwaysSingleFlight(provider, before);
      ActKeepsSingleFlight(ActAll(INITIAL, provider, before), provider, events[|events| - 1]);
    }
    if s.running.Keys != {} {
      assert s.running.Keys <= {s.slot.value};
      SubsetIsNoLarger(s.running.Keys, {s.slot.value});
    }
    assert |s.running.Keys| == |s.running|;
  }

  lemma SubsetIsNoLarger(a: set<nat>, b: set<nat>)
    requires a <= b
    ensures |a| <= |b|
  {
    assert b == a + (b - a);
  }

  /** Where the dynamic list can come from. */
  ghost predicate Comes(from: Event, provider: string, models: seq<Model>) {
    match from
    case ReadDone(_, stored, _) => stored.Some? && models == OfProvider(stored.value, provider)
    case FetchDone(_, fetched, aborted) => !aborted && models == fetched
    case _ => false
  }

  /** One event either leaves the list alone or replaces it by the stored list or by a completely fetched one. */
  lemma ListChangesWholly(s: Refresh, provider: string, e: Event)
    ensures Act(s, provider, e).dynamicModels == s.dynamicModels ||
            Comes(e, provider, Act(s, provider, e).dynamicModels)
    ensures Occurs(s, e) && e.FetchDone? && !e.aborted ==> Act(s, provider, e).dynamicModels == e.fetched
    ensures Occurs(s, e) && e.ReadDone? && e.stored.Some? ==>
            Act(s, provider, e).dynamicModels == OfProvider(e.stored.value, provider)
  {
  }

  /** After any run the list is the one delivered last: there is a last delivery, or the list is still empty. */
  lemma {:induction false} ListIsLastDelivered(provider: string, events: seq<Event>) returns (last: Option<nat>)
    ensures last.None? ==> ActAll(INITIAL, provider, events).dynamicModels == []
    ensures last.Some? ==>
              last.value < |events| &&
              Comes(events[last.value], provider, ActAll(INITIAL, provider, events).dynamicModels)
    ensures forall i :: last.GetOr(0) < i < |events| ==> !Delivers(provider, events, i)
    ensures last.None? ==> forall i :: 0 <= i < |events| ==> !Delivers(provider, events, i)
  {
    last := None;
    if events != [] {
      var n := |events| - 1;
      var before := events[..n];
      last := ListIsLastDelivered(provider, before);
      forall i | 0 <= i < n ensures Delivers(provider, before, i) <==> Delivers(provider, events, i) {
        assert before[..i] == events[..i];
      }
      ListChangesWholly(ActAll(INITIAL, provider, before), provider, events[n]);
      if Delivers(provider, events, n) {
        last := Some(n);
      }
    }
  }

  /** Event `i` of a run occurs and brings a list. */
  ghost predicate Delivers(provider: string, events: seq<Event>, i: nat)
    requires i < |events|
  {
    var e := events[i];
    && Occurs(ActAll(INITIAL, provider, events[..i]), e)
    && ((e.FetchDone? && !e.aborted) || (e.ReadDone? && e.stored.Some?))
  }

  // ---------- What is listed of a stored list ----------

  lemma CountOneMore(models: seq<Model>, last: Model, m: Model)
    ensures multiset(models + [last])[m] == multiset(models)[m] + if last == m then 1 else 0
  {
  }

  lemma OfProviderOneMore(models: seq<Model>, provider: string, last: Model)
    ensures OfProvider(models + [last], provider) ==
            if last.provider == provider then OfProvider(models, provider) + [last] else OfProvider(models, provider)
  {
    assert (models + [last])[..|models|] == models;
  }

  /** The stored models that are listed keep their order. */
  lemma {:induction false} OfProviderKeepsOrder(models: seq<Model>, provider: string)
    ensures Sub(OfProvider(models, provider), models)
  {
    if models != [] {
      var init, last := models[..|models| - 1], models[|models| - 1];
      assert models == init + [last];
      OfProviderKeepsOrder(init, provider);
      OfProviderOneMore(init, provider, last);
      SubStep(OfProvider(init, provider), init, last, OfProvider(models, provider), models);
    }
  }

  /** Of the stored models exactly those of the provider are listed, each as often as stored. */
  lemma {:induction false} OfProviderExactly(models: seq<Model>, provider: string, m: Model)
    ensures multiset(OfProvider(models, provider))[m] == if m.provider == provider then multiset(models)[m] else 0
  {
    if models != [] {
      var init, last := models[..|models| - 1], models[|models| - 1];
      assert models == init + [last];
      OfProviderExactly(init, provider, m);
      CountOneMore(init, last, m);
      CountOneMore(OfProvider(init, provider), last, m);
      OfProviderOneMore(init, provider, last);
    }
  }

  // ---------- How a refresh goes on ----------

  /** Event `c` of a run is the call that starts refresh `n`. */
  ghost predicate StartsAt(provider: string, events: seq<Event>, c: nat, n: nat) {
    c < |events| && events[c].Call? && !events[c].readThrows &&
    var before := ActAll(INITIAL, provider, events[..c]);
    before.slot.None? && before.started == n
  }

  ghost predicate Started(provider: string, events: seq<Event>, c: nat, n: nat, allowNetwork: bool) {
    StartsAt(provider, events, c, n) && events[c].allowNetwork == allowNetwork
  }

  lemma ActSnoc(provider: string, events: seq<Event>, i: nat)
    requires i < |events|
    ensures ActAll(INITIAL, provider, events[..i + 1]) ==
            Act(ActAll(INITIAL, provider, events[..i]), provider, events[i])
  {
    assert events[..i + 1][..i] == events[..i];
  }

  /** A refresh that reads was started by a call, and has kept in mind whether that call allowed the network. */
  lemma {:induction false} ReadingWasStarted(provider: string, events: seq<Event>, n: nat) returns (c: nat)
    requires n in ActAll(INITIAL, provider, events).running && ActAll(INITIAL, provider, events).running[n].Reading?
    ensures Started(provider, events, c, n, ActAll(INITIAL, provider, events).running[n].allowNetwork)
  {
    var init, e := events[..|events| - 1], events[|events| - 1];
    var before := ActAll(INITIAL, provider, init);
    AlwaysSingleFlight(provider, init);
    if e.Call? && before.slot.None? {
      c := |init|;
    } else {
      c := ReadingWasStarted(provider, init, n);
      assert events[..c] == init[..c];
    }
  }

  /** Refresh `n` has ended, and its promise is no longer shared. */
  predicate Ended(s: Refresh, n: nat) {
    n !in s.running && s.slot.None?
  }

  predicate IsAt(s: Refresh, n: nat, stage: Stage) {
    n in s.running && s.running[n] == stage && s.slot == Some(n)
  }

  /**
   * A read that succeeds is followed by a fetch if and only if the call that started the refresh allowed the network
   * and no abort is seen; otherwise the refresh has ended.
   */
  lemma FetchesExactly(provider: string, events: seq<Event>, i: nat) returns (c: nat)
    requires i < |events| && events[i].ReadDone? && Occurs(ActAll(INITIAL, provider, events[..i]), events[i])
    ensures c < i && StartsAt(provider, events, c, events[i].refresh)
    ensures var n, after := events[i].refresh, ActAll(INITIAL, provider, events[..i + 1]);
            if events[c].allowNetwork && !events[i].aborted then IsAt(after, n, Fetching) else Ended(after, n)
  {
    var n := events[i].refresh;
    AlwaysSingleFlight(provider, events[..i]);
    c := ReadingWasStarted(provider, events[..i], n);
    assert events[..i][..c] == events[..c];
    ActSnoc(provider, events, i);
  }

  /** A complete fetch is written if and only if no abort is seen; and every failure, and the write, end the refresh. */
  lemma GoesOnExactly(provider: string, events: seq<Event>, i: nat)
    requires i < |events| && Occurs(ActAll(INITIAL, provider, events[..i]), events[i])
    ensures var e, after := events[i], ActAll(INITIAL, provider, events[..i + 1]);
            match e
            case FetchDone(n, fetched, aborted) => if aborted then Ended(after, n) else IsAt(after, n, Writing(fetched))
            case ReadFailed(n) => Ended(after, n)
            case FetchFailed(n) => Ended(after, n)
            case WriteDone(n) => Ended(after, n)
            case _ => true
  {
    AlwaysSingleFlight(provider, events[..i]);
    ActSnoc(provider, events, i);
  }

  /** A call starts a refresh exactly if none is shared; nothing else starts one, and nobody else's event moves one. */
  lemma CallsShare(provider: string, events: seq<Event>, i: nat)
    requires i < |events|
    ensures var e := events[i];
            var before, after := ActAll(INITIAL, provider, events[..i]), ActAll(INITIAL, provider, events[..i + 1]);
            (e.Call? && before.slot.None? && !e.readThrows ==>
               before.running == map[] && |after.running| == 1 &&
               IsAt(after, before.started, Reading(e.allowNetwork))) &&
            (e.Call? && before.slot.Some? ==> after == before) &&
            (!Occurs(before, e) ==> after == before) &&
            (!e.Call? ==> after.started == before.started)
  {
    AlwaysSingleFlight(provider, events[..i]);
    AlwaysSingleFlight(provider, events[..i + 1]);
    ActSnoc(provider, events, i);
    var before, after := ActAll(INITIAL, provider, events[..i]), ActAll(INITIAL, provider, events[..i + 1]);
    if events[i].Call? && before.slot.None? {
      assert before.running == map[];
      assert events[i].readThrows ||
             after.running == map[before.started := Reading(events[i].allowNetwork)];
    }
  }

  /** The slot holds a promise although no refresh runs. */
  ghost predicate Stuck(s: Refresh) {
    s.slot.Some? && s.running == map[]
  }

  /** Event `i` of a run is a call that starts a refresh whose read throws outright. */
  ghost predicate ThrowsAtStart(provider: string, events: seq<Event>, i: nat)
    requires i < |events|
  {
    events[i].Call? && events[i].readThrows && ActAll(INITIAL, provider, events[..i]).slot.None?
  }

  lemma StuckStays(s: Refresh, provider: string, e: Event)
    requires Stuck(s)
    ensures Act(s, provider, e) == s
  {
  }

  /**
   * The slot is freed by every refresh that ends, except that a read which throws outright leaves its rejected
   * promise there, for good: after a run the provider is stuck if and only if that happened.
   */
  lemma {:induction false} StuckExactly(provider: string, events: seq<Event>)
    ensures Stuck(ActAll(INITIAL, provider, events)) <==>
            exists i :: 0 <= i < |events| && ThrowsAtStart(provider, events, i)
  {
    if events != [] {
      var n := |events| - 1;
      var before, e := events[..n], events[n];
      var s := ActAll(INITIAL, provider, before);
      StuckExactly(provider, before);
      AlwaysSingleFlight(provider, before);
      forall i | 0 <= i < n ensures ThrowsAtStart(provider, before, i) <==> ThrowsAtStart(provider, events, i) {
        assert before[..i] == events[..i];
      }
      StuckStep(s, provider, e);
      if Stuck(s) {
        var i :| 0 <= i < n && ThrowsAtStart(provider, before, i);
        assert ThrowsAtStart(provider, events, i);
      } else if e.Call? && e.readThrows && s.slot.None? {
        assert ThrowsAtStart(provider, events, n);
      } else {
        assert !ThrowsAtStart(provider, events, n);
      }
    }
  }

  lemma StuckStep(s: Refresh, provider: string, e: Event)
    requires SingleFlight(s)
    ensures Stuck(Act(s, provider, e)) <==> Stuck(s) || (e.Call? && e.readThrows && s.slot.None?)
  {
    if Stuck(s) {
      StuckStays(s, provider, e);
    } else if s.slot.Some? {
      var n :| n in s.running;
      assert s.running.Keys == {n};
    }
  }

  /** The provider object; `running` and `started` are the refreshes the runtime keeps suspended. */
  class Provider {
    const id: string
    const baselineModels: seq<Model>
    var dynamicModels: seq<Model>
    var inflightRefresh: Option<nat>
    var running: map<nat, Stage>
    var started: nat

    ghost function View(): Refresh reads this {
      Refresh(dynamicModels, inflightRefresh, running, started)
    }

    constructor (id: string, models: seq<Model>)
      ensures this.id == id && baselineModels == models && View() == INITIAL
    {
      this.id, baselineModels := id, models;
      dynamicModels, inflightRefresh, running, started := [], None, map[], 0;
    }

    /** `refreshModels`, up to the first await. */
    method RefreshModels(allowNetwork: bool, readThrows: bool) returns (promise: nat)
      modifies this
      ensures View() == Act(old(View()), id, Call(allowNetwork, readThrows))
      ensures inflightRefresh == Some(promise)
      ensures old(inflightRefresh).Some? ==> View() == old(View()) && old(inflightRefresh) == Some(promise)
    {
      if inflightRefresh.None? {
        promise := started;
        started := started + 1;
        if readThrows {
          inflightRefresh := None;
        } else {
          running := running[promise := Reading(allowNetwork)];
        }
        inflightRefresh := Some(promise);
      } else {
        promise := inflightRefresh.value;
      }
    }

    /** From the answer of the store to the next await, or to the end. */
    method ContinueAfterRead(promise: nat, stored: Option<seq<Model>>, aborted: bool)
      requires Occurs(View(), ReadDone(promise, stored, aborted))
      modifies this
      ensures View() == Act(old(View()), id, ReadDone(promise, stored, aborted))
    {
      var allowNetwork := running[promise].allowNetwork;
      if stored.Some? {
        dynamicModels := OfProvider(stored.value, id);
      }
      if !allowNetwork || aborted {
        inflightRefresh, running := None, running - {promise};
        return;
      }
      running := running[promise := Fetching];
    }

    /** From the fetched list to the write of it, or to the end. */
    method ContinueAfterFetch(promise: nat, refreshed: seq<Model>, aborted: bool)
      requires Occurs(View(), FetchDone(promise, refreshed, aborted))
      modifies this
      ensures View() == Act(old(View()), id, FetchDone(promise, refreshed, aborted))
    {
      if aborted {
        inflightRefresh, running := None, running - {promise};
        return;
      }
      dynamicModels := refreshed;
      running := running[promise := Writing(refreshed)];
    }

    /** The `finally` clause, on a failed await and after the write. */
    method EndRefresh(promise: nat, e: Event)
      requires e == ReadFailed(promise) || e == FetchFailed(promise) || e == WriteDone(promise)
      requires Occurs(View(), e)
      modifies this
      ensures View() == Act(old(View()), id, e)
    {
      inflightRefresh, running := None, running - {promise};
    }

    method GetModels() returns (models: seq<Model>)
      ensures IsOverlay(baselineModels, dynamicModels, models)
    {
      models := CurrentModels(baselineModels, dynamicModels);
    }
  }
}
