/** What single parts of a plan cost: parameters add up, overrides replace, and each line item
    adds up. */
module PlanPrices {
  import opened Wrappers
  import opened PlanCatalog
  import opened PlanCosts
  import opened PlanCostLaws
  import opened PlanGrowth

  // ----- Parameters add up ---------------------------------------------------------------------

  function Plus(p: Price, q: Price): Price {
    Price(p.baseMonthly + q.baseMonthly, p.perDeviceMonthly + q.perDeviceMonthly)
  }

  lemma {:induction false} ParamsPriceAdds(pricing: map<string, map<string, Price>>, ps: Params, qs: Params)
    ensures ParamsPrice(pricing, ps + qs) == Plus(ParamsPrice(pricing, ps), ParamsPrice(pricing, qs))
    decreases |qs|
  {
    hide ValuePrice;
    if qs == [] {
      assert ps + qs == ps;
    } else {
      var n, last := |qs| - 1, qs[|qs| - 1];
      assert (ps + qs)[..|ps| + n] == ps + qs[..n];
      ParamsPriceAdds(pricing, ps, qs[..n]);
    }
  }

  /** The surcharges of a listed feature add up over its parameters, in base and per device. */
  lemma ParametersAddUp(base: Price, pricing: map<string, map<string, Price>>, ps: Params, qs: Params)
    ensures var rule := Table(base, pricing);
      && RuleCost(rule, ps + qs).base + RuleCost(rule, []).base == RuleCost(rule, ps).base + RuleCost(rule, qs).base
      && RuleCost(rule, ps + qs).perDevice + RuleCost(rule, []).perDevice
         == RuleCost(rule, ps).perDevice + RuleCost(rule, qs).perDevice
  {
    hide ParamsPrice;
    ParamsPriceAdds(pricing, ps, qs);
    NoParams(pricing);
  }

  lemma NoParams(pricing: map<string, map<string, Price>>)
    ensures ParamsPrice(pricing, []) == Price(0, 0)
  {
  }

  /** A listed value adds its listed price to the listed base, and a value that is not listed adds nothing. */
  lemma {:induction false} OneParameter(base: Price, pricing: map<string, map<string, Price>>, key: string, value: ParamValue)
    ensures var cost := RuleCost(Table(base, pricing), [(key, value)]);
      if key in pricing && value.text in pricing[key] then
        && cost.base == (base.baseMonthly + pricing[key][value.text].baseMonthly) as real
        && cost.perDevice == base.perDeviceMonthly + pricing[key][value.text].perDeviceMonthly
      else cost == Cost(base.baseMonthly as real, base.perDeviceMonthly)
  {
    NoParams(pricing);
    assert [(key, value)][..0] == [];
  }

  // ----- Overrides -----------------------------------------------------------------------------

  /** A manual price is the effective one; premiums, quota and the base prices of the features then
      change no billed figure. */
  lemma ManualPriceReplaces(input: PlanInput, x: real, tier: Option<SlaTier>, quota: Option<real>)
    requires input.manualPrice == Some(x)
    ensures PlanCost(input).effectiveBase == x
    ensures var other := PlanCost(input.(slaTier := tier, ticketQuota := quota)); var r := PlanCost(input);
      && other.grandTotal == r.grandTotal && other.annualContractValue == r.annualContractValue
      && other.preDiscountSubtotal == r.preDiscountSubtotal
  {
    hide RawBase, RawPerDevice, Lines, Round, GrandTotal, Times, Net, Tax, Discount, Or, SlaPremium, QuotaAdjustment;
  }

  lemma ManualPriceIgnoresBases(input: PlanInput, features: seq<Feature>)
    requires input.manualPrice.Some? && RawPerDevice(features) == RawPerDevice(input.features)
    ensures PlanCost(input.(features := features)).grandTotal == PlanCost(input).grandTotal
  {
    hide RawBase, RawPerDevice, Lines, Round, GrandTotal, Times, Net, Tax, Discount, Or, SlaPremium, QuotaAdjustment;
  }

  /** A manual price per device is the effective one; with both prices manual the features change
      no billed figure at all. */
  lemma ManualPerDeviceReplaces(input: PlanInput, x: real, features: seq<Feature>)
    requires input.manualPerDevicePrice == Some(x)
    ensures PlanCost(input).effectivePerDevice == x
    ensures PlanCost(input).hardwareSubtotal == Round(Times(x, Count(input)))
    ensures input.manualPrice.Some? ==>
      PlanCost(input.(features := features)).grandTotal == PlanCost(input).grandTotal
  {
    hide RawBase, RawPerDevice, Lines, Round, GrandTotal, Times, Count, Net, Tax, Discount, SlaPremium, QuotaAdjustment;
    SameCount(input, input.(features := features));
  }

  /** The suggested prices ignore the overrides, and without overrides they are the effective ones. */
  lemma SuggestionsStay(input: PlanInput)
    ensures var plain := PlanCost(input.(manualPrice := None, manualPerDevicePrice := None)); var r := PlanCost(input);
      && r.suggestedBase == plain.suggestedBase == plain.effectiveBase
      && r.suggestedPerDevice == plain.suggestedPerDevice == plain.effectivePerDevice
  {
    hide RawBase, RawPerDevice, Lines, Round, GrandTotal, Times, Net, Tax, Discount, Or, SlaPremium, QuotaAdjustment;
  }

  /** A missing, zero or small device count is one device; any larger number is itself. */
  lemma CountIsAtLeastOne(input: PlanInput)
    ensures var r := PlanCost(input);
      r.equipmentCount == (match input.equipmentCount case None => 1.0 case Some(n) => if n <= 1.0 then 1.0 else n)
  {
    hide RawBase, RawPerDevice, Lines, Round, GrandTotal, Times, Net, Tax, Discount, SlaPremium, QuotaAdjustment;
  }

  // ----- Line items -----------------------------------------------------------------------------

  /** Every included feature has a line of its own, in order; a feature without a code is shown as a
      custom one. */
  lemma {:induction false} OneLineEach(features: seq<Feature>, count: real)
    ensures |Lines(features, count)| == |Included(features)|
    ensures forall i :: 0 <= i < |Included(features)| ==>
      var f := Included(features)[i];
      Lines(features, count)[i].code == (match f.code case None => "CUSTOM_FEATURE"
                                                       case Some(c) => if c == "" then "CUSTOM_FEATURE" else c)
  {
    hide FeatureCost, Round;
    if features != [] {
      OneLineEach(features[..|features| - 1], count);
    }
  }

  function Included(features: seq<Feature>): seq<Feature> {
    if features == [] then []
    else
      var last := features[|features| - 1];
      Included(features[..|features| - 1]) + (if last.included then [last] else [])
  }

  /** For a whole count and whole cents a line's total is its base plus its price for each device. */
  lemma LineAddsUp(f: Feature, n: int)
    requires f.included && Residue(f) == 0.0
    ensures var line := LineOf(f, n as real);
      && line.base as real == FeatureCost(f).base && line.perDevice == FeatureCost(f).perDevice
      && line.total == line.base + line.perDevice * n
  {
    hide FeatureCost;
    LineOfWhole(f, n);
    WholeIsRound(FeatureCost(f).perDevice);
  }

  /** Features that are not included, not listed or without a code cost nothing. */
  lemma FreeFeatures(f: Feature)
    requires !f.included || f.code.None? || forall i :: 0 <= i < |FEATURE_CATALOG| ==> FEATURE_CATALOG[i].code != f.code.value
    ensures FeatureCost(f) == Cost(0.0, 0)
  {
    hide FEATURE_CATALOG;
    if f.included && f.code.Some? { NotFound(FEATURE_CATALOG, f.code.value); }
  }

  lemma {:induction false} NotFound(items: seq<Item>, code: string)
    requires forall i :: 0 <= i < |items| ==> items[i].code != code
    ensures Find(items, code) == None
  {
    if items != [] { NotFound(items[1..], code); }
  }

  // ----- Premiums and computed prices ---------------------------------------------------------------

  /** The premium falls at 15 and 30 critical minutes and at 30 and 60 high-priority minutes. */
  lemma PremiumFalls(critical: real, high: real)
    requires critical != 0.0 && high != 0.0
    ensures SlaPremium(Some(SlaTier(Some(critical), Some(high))))
         == 6500 - (if 15.0 < critical then 2000 else 0) - (if 30.0 < critical then 2000 else 0)
                 - (if 30.0 < high then 1500 else 0) - (if 60.0 < high then 1000 else 0)
    ensures SlaPremium(Some(SlaTier(None, Some(high)))) == SlaPremium(Some(SlaTier(Some(15.0), Some(high))))
    ensures SlaPremium(Some(SlaTier(Some(critical), None))) == SlaPremium(Some(SlaTier(Some(critical), Some(60.0))))
    ensures SlaPremium(None) == 0
  {
  }

  /** The two are shown each under its own name. */
  lemma ShownApart(input: PlanInput)
    ensures PlanCost(input.(slaTier := None)).slaPremium == 0
    ensures PlanCost(input.(slaTier := Some(SlaTier(None, None)))).slaPremium == 5000
    ensures PlanCost(input.(ticketQuota := None)).quotaAdjustment == 3000
    ensures PlanCost(input.(ticketQuota := Some(1.0))).quotaAdjustment == 0
  {
    hide RawBase, RawPerDevice, Lines, Round, GrandTotal, Times, Net, Tax, Discount, Count, EffectiveBase, EffectivePerDevice,
      SuggestedBase, Subtotal;
  }

  /** No quota costs 30 dollars, one over 50 tickets 20, any other nothing. */
  lemma QuotaPrices(tickets: real)
    ensures QuotaAdjustment(None) == 3000
    ensures QuotaAdjustment(Some(tickets)) == 2000 || QuotaAdjustment(Some(tickets)) == 0
    ensures QuotaAdjustment(Some(tickets)) == 0 <==> tickets <= 50.0
  {
  }

  /** Cloud storage: 25 GB are included for 10 dollars and 1 per device, every whole GB more costs 6 cents
      per device, and a TB is 1024 GB. */
  lemma {:induction false} StoragePrices(gb: nat, text: string)
    requires 0 < gb
    ensures CloudStorageCost([("limit", ParamValue(text, Some(gb as real)))])
         == Cost(1000.0, 100 + (if gb <= 25 then 0 else 6 * (gb - 25)))
    ensures CloudStorageCost([("limit", ParamValue(text, Some(gb as real))), ("unit", ParamValue("TB", None))])
         == CloudStorageCost([("limit", ParamValue(text, Some((1024 * gb) as real)))])
    ensures CloudStorageCost([]) == CloudStorageCost([("limit", ParamValue(text, Some(0.0)))]) == Cost(1000.0, 100)
  {
    var zero := ("limit", ParamValue(text, Some(0.0)));
    assert Lookup([zero], "limit") == Some(zero.1);
    var limit := ("limit", ParamValue(text, Some(gb as real)));
    var large := ("limit", ParamValue(text, Some((1024 * gb) as real)));
    var unit := ("unit", ParamValue("TB", None));
    assert Lookup([limit], "limit") == Some(limit.1) && Lookup([large], "limit") == Some(large.1);
    var none: Params := [];
    assert [zero][1..] == none && Lookup([zero], "unit") == None;
    assert [limit, unit][1..] == [unit] && [unit][1..] == none && [limit][1..] == none && [large][1..] == none;
    assert Lookup([unit], "unit") == Some(unit.1) && Lookup([limit, unit], "unit") == Some(unit.1);
    assert Lookup([limit], "unit") == None && Lookup([large], "unit") == None;
    if 25 < gb { WholeIsRound(6 * (gb - 25)); }
  }

  /** On-site support: 65 dollars an hour, by default 2 hours, 40 more for the same day and 15 less, but never
      below nothing, for best effort. */
  lemma {:induction false} OnsitePrices(hours: real, text: string)
    requires 0.0 < hours
    ensures var h := ("hours", ParamValue(text, Some(hours)));
      && OnsiteSupportCost([h]) == Cost(6500.0 * hours, 0)
      && OnsiteSupportCost([h, ("emergencySla", ParamValue("Same-Day (4h)", None))]) == Cost(6500.0 * hours + 4000.0, 0)
      && OnsiteSupportCost([h, ("emergencySla", ParamValue("Best Effort", None))])
         == Cost(if 6500.0 * hours < 1500.0 then 0.0 else 6500.0 * hours - 1500.0, 0)
    ensures OnsiteSupportCost([]) == OnsiteSupportCost([("hours", ParamValue(text, Some(0.0)))]) == Cost(13000.0, 0)
  {
    OnsiteLookups(("hours", ParamValue(text, Some(0.0))), "");
    var h := ("hours", ParamValue(text, Some(hours)));
    OnsiteLookups(h, "Same-Day (4h)");
    OnsiteLookups(h, "Best Effort");
    assert "Same-Day (4h)"[0] != "Best Effort"[0];
    assert Lookup([], "hours") == None && Lookup([], "emergencySla") == None;
  }

  lemma {:induction false} OnsiteLookups(h: (string, ParamValue), sla: string)
    requires h.0 == "hours"
    ensures Lookup([h], "hours") == Some(h.1) && Lookup([h], "emergencySla") == None
    ensures var s := ("emergencySla", ParamValue(sla, None));
      Lookup([h, s], "hours") == Some(h.1) && Lookup([h, s], "emergencySla") == Some(s.1)
  {
    var s := ("emergencySla", ParamValue(sla, None));
    var none: Params := [];
    assert [h][1..] == none && [h, s][1..] == [s];
    assert "hours"[0] != "emergencySla"[0];
    assert Lookup([s], "emergencySla") == Some(s.1);
  }
}
