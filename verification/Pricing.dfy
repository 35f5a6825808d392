/** What a request costs: one tier of rates for all of it. */
module Pricing {
  import opened Options

  datatype Rates = Rates(input: real, output: real, cacheRead: real, cacheWrite: real)

  datatype Tier = Tier(inputTokensAbove: real, rates: Rates)

  datatype Pricelist = Pricelist(base: Rates, tiers: seq<Tier>)

  datatype Tokens = Tokens(input: real, output: real, cacheRead: real, cacheWrite: real, cacheWrite1h: Option<real>)

  datatype Charge = Charge(input: real, output: real, cacheRead: real, cacheWrite: real, total: real)

  function InputTokens(t: Tokens): real {
    t.input + t.cacheRead + t.cacheWrite
  }

  /** A tier can apply if the request exceeds its threshold; thresholds of -1 and below never match. */
  predicate Applies(tier: Tier, tokens: real) {
    tokens > tier.inputTokensAbove > -1.0
  }

  /** No tier that applies has a higher threshold, and none before this one has the same. */
  ghost predicate IsBest(tiers: seq<Tier>, tokens: real, i: nat) {
    && i < |tiers| && Applies(tiers[i], tokens)
    && forall j :: 0 <= j < |tiers| && Applies(tiers[j], tokens) ==>
         tiers[j].inputTokensAbove <= tiers[i].inputTokensAbove &&
         (j < i ==> tiers[j].inputTokensAbove < tiers[i].inputTokensAbove)
  }

  /** The rates a request is charged at: those of the best tier, or the base rates if none applies. */
  ghost predicate AreRates(prices: Pricelist, tokens: real, rates: Rates) {
    if exists i: nat :: IsBest(prices.tiers, tokens, i)
    then exists i: nat :: IsBest(prices.tiers, tokens, i) && rates == prices.tiers[i].rates
    else rates == prices.base
  }

  lemma BestIsUnique(tiers: seq<Tier>, tokens: real, i: nat, j: nat)
    requires IsBest(tiers, tokens, i) && IsBest(tiers, tokens, j)
    ensures i == j
  {
  }

  /** There is a best tier as soon as one applies. */
  lemma {:induction false} BestExists(tiers: seq<Tier>, tokens: real)
    ensures (exists i: nat :: IsBest(tiers, tokens, i)) <==> exists j :: 0 <= j < |tiers| && Applies(tiers[j], tokens)
  {
    if tiers != [] {
      var init, last := tiers[..|tiers| - 1], tiers[|tiers| - 1];
      BestExists(init, tokens);
      if b: nat :| IsBest(init, tokens, b) {
        if Applies(last, tokens) && last.inputTokensAbove > init[b].inputTokensAbove {
          assert IsBest(tiers, tokens, |init|);
        } else {
          assert IsBest(tiers, tokens, b);
        }
      } else {
        assert forall j :: 0 <= j < |init| ==> tiers[j] == init[j] && !Applies(init[j], tokens);
        if Applies(last, tokens) {
          assert IsBest(tiers, tokens, |init|);
        }
      }
    }
  }

  ghost predicate DistinctThresholds(tiers: seq<Tier>) {
    forall i, j :: 0 <= i < j < |tiers| ==> tiers[i].inputTokensAbove != tiers[j].inputTokensAbove
  }

  /** A list with the same tiers in another order has each of them too. */
  lemma PlaceOf(a: seq<Tier>, b: seq<Tier>, i: nat) returns (j: nat)
    requires multiset(a) == multiset(b) && i < |a|
    ensures j < |b| && b[j] == a[i]
  {
    assert a[i] in multiset(a);
    assert a[i] in b;
    j :| 0 <= j < |b| && b[j] == a[i];
  }

  /** The best tier of a list with distinct thresholds is the best one in any order. */
  lemma SameBest(a: seq<Tier>, b: seq<Tier>, tokens: real, i: nat, j: nat)
    requires multiset(a) == multiset(b) && DistinctThresholds(a)
    requires IsBest(a, tokens, i) && IsBest(b, tokens, j)
    ensures a[i] == b[j]
  {
    var k := PlaceOf(b, a, j);
    var l := PlaceOf(a, b, i);
    assert a[k].inputTokensAbove == a[i].inputTokensAbove;
  }

  lemma BestInAnyOrder(a: seq<Tier>, b: seq<Tier>, tokens: real, j: nat) returns (i: nat)
    requires multiset(a) == multiset(b) && IsBest(b, tokens, j)
    ensures IsBest(a, tokens, i)
  {
    var k := PlaceOf(b, a, j);
    BestExists(a, tokens);
    i :| IsBest(a, tokens, i);
  }

  /** With distinct thresholds the order in which the tiers are listed does not matter. */
  lemma OrderDoesNotMatter(a: Pricelist, b: Pricelist, tokens: real, rates: Rates)
    requires a.base == b.base && multiset(a.tiers) == multiset(b.tiers) && DistinctThresholds(a.tiers)
    requires AreRates(a, tokens, rates)
    ensures AreRates(b, tokens, rates)
  {
    if j: nat :| IsBest(b.tiers, tokens, j) {
      var i := BestInAnyOrder(a.tiers, b.tiers, tokens, j);
      SameBest(a.tiers, b.tiers, tokens, i, j);
      BestAreRates(a, tokens, i, rates);
    } else if i: nat :| IsBest(a.tiers, tokens, i) {
      var j := BestInAnyOrder(b.tiers, a.tiers, tokens, i);
    }
  }

  lemma BestAreRates(prices: Pricelist, tokens: real, i: nat, rates: Rates)
    requires IsBest(prices.tiers, tokens, i) && AreRates(prices, tokens, rates)
    ensures rates == prices.tiers[i].rates
  {
    var j: nat :| IsBest(prices.tiers, tokens, j) && rates == prices.tiers[j].rates;
    BestIsUnique(prices.tiers, tokens, i, j);
  }

  /** With equal thresholds it does: the tier listed first wins. */
  lemma EqualThresholdsFollowOrder(base: Rates, threshold: real, first: Rates, second: Rates, tokens: real)
    requires tokens > threshold > -1.0
    ensures AreRates(Pricelist(base, [Tier(threshold, first), Tier(threshold, second)]), tokens, first)
    ensures first != second ==>
            !AreRates(Pricelist(base, [Tier(threshold, second), Tier(threshold, first)]), tokens, first)
  {
    var a := [Tier(threshold, first), Tier(threshold, second)];
    var b := [Tier(threshold, second), Tier(threshold, first)];
    assert IsBest(a, tokens, 0) && IsBest(b, tokens, 0);
    if AreRates(Pricelist(base, b), tokens, first) {
      BestAreRates(Pricelist(base, b), tokens, 0, first);
    }
  }

  /** A token of each kind at its own rate, one-hour cache writes at twice the input rate. */
  ghost predicate IsCharge(rates: Rates, t: Tokens, c: Charge) {
    var long := t.cacheWrite1h.GetOr(0.0);
    && c.input * 1000000.0 == rates.input * t.input
    && c.output * 1000000.0 == rates.output * t.output
    && c.cacheRead * 1000000.0 == rates.cacheRead * t.cacheRead
    && c.cacheWrite * 1000000.0 == rates.cacheWrite * (t.cacheWrite - long) + rates.input * 2.0 * long
    && c.total == c.input + c.output + c.cacheRead + c.cacheWrite
  }

  /** The tier a request is charged at, found in one pass over the tiers. */
  method SelectRates(prices: Pricelist, inputTokens: real) returns (rates: Rates)
    ensures AreRates(prices, inputTokens, rates)
  {
    var matchedThreshold := -1.0;
    rates := prices.base;
    ghost var best: Option<nat> := None;
    for i := 0 to |prices.tiers|
      invariant best.None? ==> rates == prices.base && matchedThreshold == -1.0
      invariant best.None? ==> forall j :: 0 <= j < i ==> !Applies(prices.tiers[j], inputTokens)
      invariant best.Some? ==> best.value < i && IsBest(prices.tiers[..i], inputTokens, best.value)
      invariant best.Some? ==> rates == prices.tiers[best.value].rates
      invariant best.Some? ==> matchedThreshold == prices.tiers[best.value].inputTokensAbove
    {
      var tier := prices.tiers[i];
      ghost var seen := prices.tiers[..i];
      assert prices.tiers[..i + 1] == seen + [tier];
      if inputTokens > tier.inputTokensAbove && tier.inputTokensAbove > matchedThreshold {
        rates, matchedThreshold := tier.rates, tier.inputTokensAbove;
        best := Some(i);
      }
    }
    assert prices.tiers[..|prices.tiers|] == prices.tiers;
    assert best.Some? ==> IsBest(prices.tiers, inputTokens, best.value);
  }

  class Usage {
    const tokens: Tokens
    var cost: Charge

    constructor (tokens: Tokens)
      ensures this.tokens == tokens
    {
      this.tokens := tokens;
      cost := Charge(0.0, 0.0, 0.0, 0.0, 0.0);
    }

    /** `calculateCost`: fills in the cost of this usage. */
    method CalculateCost(prices: Pricelist) returns (c: Charge)
      modifies this
      ensures c == cost
      ensures exists rates ::
                AreRates(prices, tokens.input + tokens.cacheRead + tokens.cacheWrite, rates) &&
                IsCharge(rates, tokens, cost)
      ensures NoneNegative(prices) && Plausible(tokens) ==>
              c.input >= 0.0 && c.output >= 0.0 && c.cacheRead >= 0.0 && c.cacheWrite >= 0.0 && c.total >= c.input
    {
      var rates := SelectRates(prices, InputTokens(tokens));
      c := ChargeAt(rates, tokens);
      if NoneNegative(prices) && Plausible(tokens) {
        ChargeIsNonNegative(rates, tokens, c);
      }
      cost := c;
    }
  }

  method ChargeAt(rates: Rates, tokens: Tokens) returns (c: Charge)
    ensures IsCharge(rates, tokens, c)
  {
    var longWrite := tokens.cacheWrite1h.GetOr(0.0);
    var shortWrite := tokens.cacheWrite - longWrite;
    var input := (rates.input / 1000000.0) * tokens.input;
    var output := (rates.output / 1000000.0) * tokens.output;
    var cacheRead := (rates.cacheRead / 1000000.0) * tokens.cacheRead;
    var cacheWrite := (rates.cacheWrite * shortWrite + rates.input * 2.0 * longWrite) / 1000000.0;
    Million(rates.input, tokens.input);
    Million(rates.output, tokens.output);
    Million(rates.cacheRead, tokens.cacheRead);
    c := Charge(input, output, cacheRead, cacheWrite, input + output + cacheRead + cacheWrite);
  }

  lemma Million(rate: real, tokens: real)
    ensures (rate / 1000000.0) * tokens * 1000000.0 == rate * tokens
  {
    var r := rate / 1000000.0;
    assert r * 1000000.0 == rate;
    assert r * tokens * 1000000.0 == (r * 1000000.0) * tokens;
  }

  predicate NonNegative(r: Rates) {
    r.input >= 0.0 && r.output >= 0.0 && r.cacheRead >= 0.0 && r.cacheWrite >= 0.0
  }

  predicate NoneNegative(prices: Pricelist) {
    NonNegative(prices.base) && forall i :: 0 <= i < |prices.tiers| ==> NonNegative(prices.tiers[i].rates)
  }

  /** No count is negative, and one-hour writes are among the cache writes. */
  predicate Plausible(t: Tokens) {
    t.input >= 0.0 && t.output >= 0.0 && t.cacheRead >= 0.0 && 0.0 <= t.cacheWrite1h.GetOr(0.0) <= t.cacheWrite
  }

  /** No part of a charge is negative when rates and counts are not and one-hour writes are among the cache writes. */
  lemma ChargeIsNonNegative(rates: Rates, t: Tokens, c: Charge)
    requires NonNegative(rates) && Plausible(t)
    ensures IsCharge(rates, t, c) ==>
            c.input >= 0.0 && c.output >= 0.0 && c.cacheRead >= 0.0 && c.cacheWrite >= 0.0 && c.total >= c.input
  {
    var long := t.cacheWrite1h.GetOr(0.0);
    assert rates.input * t.input >= 0.0;
    assert rates.output * t.output >= 0.0;
    assert rates.cacheRead * t.cacheRead >= 0.0;
    assert rates.cacheWrite * (t.cacheWrite - long) >= 0.0;
    assert rates.input * 2.0 * long >= 0.0;
  }
}
