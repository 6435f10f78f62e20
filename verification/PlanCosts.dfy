/** The plan pricing engine: a fold over the included features with rounding to cents at
    several points, an annual discount that is itself rounded, and tax. Amounts are in cents. */
module PlanCosts {
  import opened Wrappers
  import opened PlanCatalog

  datatype Feature = Feature(code: Option<string>, included: bool, params: Params)

  datatype SlaTier = SlaTier(critical: Option<real>, high: Option<real>)

  datatype PlanInput = PlanInput(
    features: seq<Feature>,
    equipmentCount: Option<real>,
    annual: bool,
    taxExempt: bool,
    ticketQuota: Option<real>,
    slaTier: Option<SlaTier>,
    manualPrice: Option<real>,
    manualPerDevicePrice: Option<real>)

  datatype LineItem = LineItem(code: string, base: int, perDevice: int, total: int)

  datatype PlanResult = PlanResult(
    suggestedBase: real, suggestedPerDevice: real,
    effectiveBase: real, effectivePerDevice: real,
    equipmentCount: real,
    hardwareSubtotal: int, preDiscountSubtotal: int, annualDiscount: int, netSubtotal: int,
    taxAmount: int, grandTotal: int, annualContractValue: int,
    lineItems: seq<LineItem>,
    slaPremium: int, quotaAdjustment: int)

  const TAX_RATE: real := 0.18

  // ----- The specification ---------------------------------------------------------------

  function FeatureCost(f: Feature): Cost {
    if !f.included || f.code.None? then Cost(0.0, 0)
    else match Find(FEATURE_CATALOG, f.code.value)
      case None => Cost(0.0, 0)
      case Some(rule) => RuleCost(rule, f.params)
  }

  /** The sum of the base prices of the included features. */
  function RawBase(features: seq<Feature>): real {
    if features == [] then 0.0
    else RawBase(features[..|features| - 1]) + FeatureCost(features[|features| - 1]).base
  }

  function RawPerDevice(features: seq<Feature>): int {
    if features == [] then 0
    else RawPerDevice(features[..|features| - 1]) + FeatureCost(features[|features| - 1]).perDevice
  }

  /** A product as a name of its own, so that proofs need not multiply unless they say so. */
  function Times(x: real, y: real): real {
    x * y
  }

  function LineOf(f: Feature, count: real): LineItem {
    var cost := FeatureCost(f);
    LineItem(if f.code.Some? && f.code.value != "" then f.code.value else "CUSTOM_FEATURE",
             Round(cost.base), Round(cost.perDevice as real), Round(cost.base + Times(cost.perDevice as real, count)))
  }

  function Lines(features: seq<Feature>, count: real): seq<LineItem> {
    if features == [] then []
    else
      var last := features[|features| - 1];
      Lines(features[..|features| - 1], count) + (if last.included then [LineOf(last, count)] else [])
  }

  /** `Number(value) || fallback` on a number that may be missing. */
  function Or(value: Option<real>, fallback: real): real {
    if value.Some? && value.value != 0.0 then value.value else fallback
  }

  function SlaPremium(tier: Option<SlaTier>): int {
    if tier.None? then 0
    else
      var critical, high := Or(tier.value.critical, 15.0), Or(tier.value.high, 60.0);
      (if critical <= 15.0 then 4000 else if critical <= 30.0 then 2000 else 0)
      + (if high <= 30.0 then 2500 else if high <= 60.0 then 1000 else 0)
  }

  method CalculateSlaPremium(tier: Option<SlaTier>) returns (premium: int)
    ensures premium == SlaPremium(tier) && 0 <= premium <= 6500
  {
    if tier.None? { return 0; }
    premium := 0;
    var critical := Or(tier.value.critical, 15.0);
    var high := Or(tier.value.high, 60.0);
    if critical <= 15.0 {
      premium := premium + 4000;
    } else if critical <= 30.0 {
      premium := premium + 2000;
    }
    if high <= 30.0 {
      premium := premium + 2500;
    } else if high <= 60.0 {
      premium := premium + 1000;
    }
  }

  function QuotaAdjustment(quota: Option<real>): int {
    if quota.None? then 3000 else if 50.0 < quota.value then 2000 else 0
  }

  function Count(input: PlanInput): real {
    Max(1.0, Or(input.equipmentCount, 1.0))
  }

  function SuggestedBase(input: PlanInput): real {
    Max(0.0, Round(RawBase(input.features) + (SlaPremium(input.slaTier) + QuotaAdjustment(input.ticketQuota)) as real) as real)
  }

  function EffectiveBase(input: PlanInput): real {
    if input.manualPrice.Some? then input.manualPrice.value else SuggestedBase(input)
  }

  function EffectivePerDevice(input: PlanInput): real {
    if input.manualPerDevicePrice.Some? then input.manualPerDevicePrice.value
    else Max(0.0, Round(RawPerDevice(input.features) as real) as real)
  }

  /** The price before discount and tax, not yet rounded. */
  function Subtotal(input: PlanInput): real {
    EffectiveBase(input) + Times(EffectivePerDevice(input), Count(input))
  }

  function Discount(subtotal: real, annual: bool): int {
    if annual then Round(subtotal * 0.1) else 0
  }

  function Net(subtotal: real, annual: bool): real {
    Max(0.0, subtotal - Discount(subtotal, annual) as real)
  }

  function Tax(net: real, exempt: bool): int {
    Round(Times(net, if exempt then 0.0 else TAX_RATE))
  }

  function GrandTotal(subtotal: real, annual: bool, exempt: bool): int {
    var net := Net(subtotal, annual);
    Round(net + Tax(net, exempt) as real)
  }

  function PlanCost(input: PlanInput): PlanResult {
    var subtotal := Subtotal(input);
    var net := Net(subtotal, input.annual);
    var grand := GrandTotal(subtotal, input.annual, input.taxExempt);
    PlanResult(
      SuggestedBase(input), Max(0.0, Round(RawPerDevice(input.features) as real) as real),
      EffectiveBase(input), EffectivePerDevice(input), Count(input),
      Round(Times(EffectivePerDevice(input), Count(input))), Round(subtotal), Discount(subtotal, input.annual), Round(net),
      Tax(net, input.taxExempt), grand, Round(grand as real * 12.0),
      Lines(input.features, Count(input)),
      SlaPremium(input.slaTier), QuotaAdjustment(input.ticketQuota))
  }

  lemma AppendOne(features: seq<Feature>, f: Feature, count: real)
    ensures RawBase(features + [f]) == RawBase(features) + FeatureCost(f).base
    ensures RawPerDevice(features + [f]) == RawPerDevice(features) + FeatureCost(f).perDevice
    ensures Lines(features + [f], count)
         == if f.included then Lines(features, count) + [LineOf(f, count)] else Lines(features, count)
    ensures !f.included ==> FeatureCost(f) == Cost(0.0, 0)
  {
    hide FEATURE_CATALOG, LineOf;
    assert (features + [f])[..|features|] == features;
  }

  lemma WholeIsRound(n: int)
    ensures Round(n as real) == n
  {
  }

  // ----- The engine -------------------------------------------------------------------------

  /** The part of the loop body that prices one feature. */
  method PriceFeature(feature: Feature) returns (featBase: real, featPerDevice: int)
    requires feature.included
    ensures Cost(featBase, featPerDevice) == FeatureCost(feature)
  {
    hide FEATURE_CATALOG;
    var rule := if feature.code.Some? then Find(FEATURE_CATALOG, feature.code.value) else None;
    if rule.None? { return 0.0, 0; }
    match rule.value {
      case Table(base, paramPricing) =>
        var b, p := base.baseMonthly, base.perDeviceMonthly;
        var j := 0;
        while j < |feature.params|
          invariant 0 <= j <= |feature.params|
          invariant b == base.baseMonthly + ParamsPrice(paramPricing, feature.params[..j]).baseMonthly
          invariant p == base.perDeviceMonthly + ParamsPrice(paramPricing, feature.params[..j]).perDeviceMonthly
        {
          var (key, value) := feature.params[j];
          assert feature.params[..j + 1][..j] == feature.params[..j];
          if key in paramPricing && value.text in paramPricing[key] {
            var price := paramPricing[key][value.text];
            b, p := b + price.baseMonthly, p + price.perDeviceMonthly;
          }
          j := j + 1;
        }
        assert feature.params[..j] == feature.params;
        return b as real, p;
      case CloudStorage =>
        var cost := CloudStorageCost(feature.params);
        return cost.base, cost.perDevice;
      case OnsiteSupport =>
        var cost := OnsiteSupportCost(feature.params);
        return cost.base, cost.perDevice;
    }
  }

  /** The accumulating loop over the features. */
  method AccumulateFeatures(features: seq<Feature>, equipmentCount: real)
    returns (rawBase: real, rawPerDevice: int, lineItems: seq<LineItem>)
    ensures rawBase == RawBase(features)
    ensures rawPerDevice == RawPerDevice(features)
    ensures lineItems == Lines(features, equipmentCount)
  {
    hide FEATURE_CATALOG, FeatureCost, Times, Round;
    rawBase, rawPerDevice, lineItems := 0.0, 0, [];
    var i := 0;
    while i < |features|
      invariant 0 <= i <= |features|
      invariant rawBase == RawBase(features[..i])
      invariant rawPerDevice == RawPerDevice(features[..i])
      invariant lineItems == Lines(features[..i], equipmentCount)
    {
      var feature := features[i];
      AppendOne(features[..i], feature, equipmentCount);
      assert features[..i + 1] == features[..i] + [feature];
      i := i + 1;
      if !feature.included { continue; }
      var featBase, featPerDevice := PriceFeature(feature);
      var featureTotal := featBase + Times(featPerDevice as real, equipmentCount);
      rawBase := rawBase + featBase;
      rawPerDevice := rawPerDevice + featPerDevice;
      var code := if feature.code.Some? && feature.code.value != "" then feature.code.value else "CUSTOM_FEATURE";
      lineItems := lineItems + [LineItem(code, Round(featBase), Round(featPerDevice as real), Round(featureTotal))];
    }
    assert features[..i] == features;
  }

  method CalculatePlanCosts(input: PlanInput) returns (result: PlanResult)
    ensures result == PlanCost(input)
  {
    hide FEATURE_CATALOG, Times, RawBase, RawPerDevice, Lines;
    var equipmentCount := Max(1.0, Or(input.equipmentCount, 1.0));
    var rawBase, rawPerDevice, lineItems := AccumulateFeatures(input.features, equipmentCount);
    var slaPremium := CalculateSlaPremium(input.slaTier);
    var quota := QuotaAdjustment(input.ticketQuota);
    var suggestedBase := Max(0.0, Round(rawBase + (slaPremium + quota) as real) as real);
    var suggestedPerDevice := Max(0.0, Round(rawPerDevice as real) as real);
    var effectiveBase := if input.manualPrice.Some? then input.manualPrice.value else suggestedBase;
    var effectivePerDevice := if input.manualPerDevicePrice.Some? then input.manualPerDevicePrice.value else suggestedPerDevice;
    var hardware := Times(effectivePerDevice, equipmentCount);
    var subtotal := effectiveBase + hardware;
    var discount := if input.annual then Round(subtotal * 0.1) else 0;
    var net := Max(0.0, subtotal - discount as real);
    var tax := Round(Times(net, if input.taxExempt then 0.0 else TAX_RATE));
    var grand := Round(net + tax as real);
    result := PlanResult(suggestedBase, suggestedPerDevice, effectiveBase, effectivePerDevice, equipmentCount,
                         Round(hardware), Round(subtotal), discount, Round(net), tax, grand, Round(grand as real * 12.0),
                         lineItems, slaPremium, quota);
  }
}
