/**
 * The pricing table: per-model token rates with a default fallback, the
 * four credit packs, and the lookups over them.
 */
module Pricing {
  import opened Wrappers
  import opened Numeric
  import opened Collections

  /** A credit pack; `price` is in cents. */
  datatype PricingTier = PricingTier(name: string, credits: int, price: int, bonusPercent: Option<int>)

  /** The four packs, in ascending order of credits. */
  const PricingTiers: seq<PricingTier> := [
    PricingTier("Starter", 1000, 1000, None),
    PricingTier("Pro", 5000, 4500, Some(10)),
    PricingTier("Business", 10000, 8000, Some(20)),
    PricingTier("Enterprise", 25000, 18000, Some(28))
  ]

  /** The rate charged for a model with no usable entry in the rate map. */
  const DefaultCostPerToken: real := 0.1

  /** A row of the model catalogue as the rate loader reads it. */
  datatype DifyModel = DifyModel(name: string, costPerToken: real, isActive: bool)

  /**
   * The rate of `model`: its entry, unless the entry is absent or zero,
   * in which case the `||` falls through to the default.
   */
  function RateOf(rates: map<string, real>, model: string): (r: real)
    ensures model in rates && rates[model] != 0.0 ==> r == rates[model]
    ensures model !in rates || rates[model] == 0.0 ==> r == DefaultCostPerToken
    ensures r != 0.0
  {
    if model in rates && rates[model] != 0.0 then rates[model] else DefaultCostPerToken
  }

  /** The credits charged for `tokens` tokens of `model`: the rate times the tokens, rounded up. */
  function TokenCost(rates: map<string, real>, model: string, tokens: int): (r: int)
    ensures tokens as real * RateOf(rates, model) <= r as real < tokens as real * RateOf(rates, model) + 1.0
  {
    Ceil(tokens as real * RateOf(rates, model))
  }

  /** The rate map after loading `models` into `rates`, one active model at a time. */
  function LoadedRates(rates: map<string, real>, models: seq<DifyModel>): map<string, real>
  {
    if models == [] then rates
    else
      var before := LoadedRates(rates, models[..|models| - 1]);
      var m := models[|models| - 1];
      if m.isActive then before[m.name := m.costPerToken] else before
  }

  /** Loading adds exactly the names of the active models. */
  lemma {:induction false} LoadedRatesKeys(rates: map<string, real>, models: seq<DifyModel>, name: string)
    ensures name in LoadedRates(rates, models)
        <==> name in rates || exists i :: 0 <= i < |models| && models[i].isActive && models[i].name == name
  {
    if models != [] {
      var init := models[..|models| - 1];
      LoadedRatesKeys(rates, init, name);
      if exists i :: 0 <= i < |init| && init[i].isActive && init[i].name == name {
        var i :| 0 <= i < |init| && init[i].isActive && init[i].name == name;
        assert models[i] == init[i];
      }
      if exists i :: 0 <= i < |models| && models[i].isActive && models[i].name == name {
        var i :| 0 <= i < |models| && models[i].isActive && models[i].name == name;
        if i < |init| {
          assert init[i] == models[i];
        }
      }
    }
  }

  /** An active model whose name no later active model repeats is priced at its own rate. */
  lemma {:induction false} LoadedRatesValue(rates: map<string, real>, models: seq<DifyModel>, i: nat)
    requires i < |models| && models[i].isActive
    requires forall j :: i < j < |models| && models[j].isActive ==> models[j].name != models[i].name
    ensures models[i].name in LoadedRates(rates, models)
    ensures LoadedRates(rates, models)[models[i].name] == models[i].costPerToken
  {
    if i < |models| - 1 {
      var init := models[..|models| - 1];
      assert init[i] == models[i];
      LoadedRatesValue(rates, init, i);
    }
  }

  /** The in-memory rate map of the pricing service. */
  class PricingCalculator {
    var modelPricing: map<string, real>

    /** Starts with no rates; loading from the catalogue is a separate step. */
    constructor ()
      ensures modelPricing == map[]
    {
      modelPricing := map[];
    }

    /**
     * Reads the active models of the catalogue into the rate map. When the
     * query fails the error is swallowed and the map keeps what it had.
     */
    method LoadModelPricing(catalogue: seq<DifyModel>, queryFails: bool)
      modifies this
      ensures modelPricing == if queryFails then old(modelPricing) else LoadedRates(old(modelPricing), catalogue)
    {
      if queryFails {
        return;
      }
      var i := 0;
      while i < |catalogue|
        invariant 0 <= i <= |catalogue|
        invariant modelPricing == LoadedRates(old(modelPricing), catalogue[..i])
      {
        assert catalogue[..i + 1][..i] == catalogue[..i];
        if catalogue[i].isActive {
          modelPricing := modelPricing[catalogue[i].name := catalogue[i].costPerToken];
        }
        i := i + 1;
      }
      assert catalogue[..i] == catalogue;
    }

    function CalculateTokenCost(modelName: string, tokens: int): (r: int)
      reads this
      ensures r == TokenCost(modelPricing, modelName, tokens)
    {
      TokenCost(modelPricing, modelName, tokens)
    }

    function GetCostPerToken(modelName: string): (r: real)
      reads this
      ensures r == RateOf(modelPricing, modelName)
    {
      RateOf(modelPricing, modelName)
    }

    /** Stores a model's rate; every other model keeps its rate. */
    method UpdateModelPricing(modelName: string, costPerToken: real)
      modifies this
      ensures modelPricing == old(modelPricing)[modelName := costPerToken]
      ensures costPerToken != 0.0 ==> GetCostPerToken(modelName) == costPerToken
      ensures forall m :: m != modelName ==> GetCostPerToken(m) == old(GetCostPerToken(m))
    {
      modelPricing := modelPricing[modelName := costPerToken];
    }
  }

  /** After an update the model is billed at the new rate, unless that rate is zero. */
  lemma RateAfterUpdate(rates: map<string, real>, model: string, cost: real, other: string)
    ensures cost != 0.0 ==> RateOf(rates[model := cost], model) == cost
    ensures cost == 0.0 ==> RateOf(rates[model := cost], model) == DefaultCostPerToken
    ensures other != model ==> RateOf(rates[model := cost], other) == RateOf(rates, other)
  {
  }

  /** With a non-negative rate, cost is non-negative and never falls as tokens grow. */
  lemma TokenCostMonotone(rates: map<string, real>, model: string, t1: int, t2: int)
    requires 0 <= t1 <= t2
    requires RateOf(rates, model) >= 0.0
    ensures 0 <= TokenCost(rates, model, t1) <= TokenCost(rates, model, t2)
  {
    var rate := RateOf(rates, model);
    assert t1 as real * rate <= t2 as real * rate;
    CeilMonotone(t1 as real * rate, t2 as real * rate);
  }

  /** The packs are in strictly ascending order of credits and of price. */
  lemma TiersAscending()
    ensures forall i, j :: 0 <= i < j < |PricingTiers| ==> PricingTiers[i].credits < PricingTiers[j].credits
    ensures forall i, j :: 0 <= i < j < |PricingTiers| ==> PricingTiers[i].price < PricingTiers[j].price
  {
  }

  /** Each pack's price is its credits at one cent apiece, less its bonus percentage. */
  lemma TierPricesMatchBonus()
    ensures forall t :: t in PricingTiers ==>
      t.price * 100 == t.credits * (100 - t.bonusPercent.GetOr(0))
  {
  }

  /** The pack with exactly `credits` credits, or none. */
  function GetPricingTierByCredits(credits: int): (r: Option<PricingTier>)
    ensures r.Some? <==> exists t :: t in PricingTiers && t.credits == credits
    ensures r.Some? ==> r.value in PricingTiers && r.value.credits == credits
  {
    Find(PricingTiers, (t: PricingTier) => t.credits == credits)
  }

  /**
   * The credits a payment of `priceInCents` buys: a pack's credits when the
   * price is a pack's price, otherwise one credit per cent, computed as
   * `Math.floor((priceInCents / 100) * 100)` in exact arithmetic.
   */
  function CalculateCreditsForPrice(priceInCents: int): (r: int)
    ensures forall t :: t in PricingTiers && t.price == priceInCents ==> r == t.credits
    ensures (forall t :: t in PricingTiers ==> t.price != priceInCents) ==> r == priceInCents
  {
    match Find(PricingTiers, (t: PricingTier) => t.price == priceInCents)
    case Some(tier) => tier.credits
    case None =>
      var baseRate := 100.0;
      var credits := Floor(priceInCents as real / 100.0 * baseRate);
      assert priceInCents as real / 100.0 * baseRate == priceInCents as real;
      credits
  }

  /**
   * The smallest pack holding at least 120% of `monthlyUsage`, or the
   * largest pack when none does.
   */
  method GetRecommendedTier(monthlyUsage: real) returns (tier: PricingTier)
    ensures tier in PricingTiers
    ensures tier.credits as real >= monthlyUsage * 1.2 ==>
      forall t :: t in PricingTiers && t.credits < tier.credits ==> (t.credits as real) < monthlyUsage * 1.2
    ensures tier.credits as real < monthlyUsage * 1.2 ==>
      tier == PricingTiers[|PricingTiers| - 1] && forall t :: t in PricingTiers ==> (t.credits as real) < monthlyUsage * 1.2
  {
    var targetCredits := monthlyUsage * 1.2;
    TiersAscending();
    var i := 0;
    while i < |PricingTiers|
      invariant 0 <= i <= |PricingTiers|
      invariant forall j :: 0 <= j < i ==> (PricingTiers[j].credits as real) < targetCredits
    {
      if PricingTiers[i].credits as real >= targetCredits {
        return PricingTiers[i];
      }
      i := i + 1;
    }
    return PricingTiers[|PricingTiers| - 1];
  }
}
