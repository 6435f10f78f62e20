/** When a larger plan never costs less: what rounding the annual discount can do to the total. */
module PlanGrowth {
  import opened Wrappers
  import opened PlanCatalog
  import opened PlanCosts
  import opened PlanCostLaws

  lemma NetIsMonotone(s: real, t: real, annual: bool)
    requires 0.0 <= s && (s == t || s + 1.0 <= t || (!annual && s <= t))
    ensures 0.0 <= Net(s, annual) <= Net(t, annual)
  {
    DiscountFits(s, annual);
    if s + 1.0 <= t && annual {
      TenthStep(s, t);
    }
  }

  /** A tenth of the rise, plus one, covers what the rounded discount can gain. */
  lemma TenthStep(s: real, t: real)
    requires s + 1.0 <= t
    ensures Round(t * 0.1) as real - Round(s * 0.1) as real <= t - s
  {
    var k, m := Round(s * 0.1), Round(t * 0.1);
    assert m as real <= t * 0.1 + 0.5 && s * 0.1 + 0.5 < k as real + 1.0;
    if t - s < 2.0 {
      assert m as real < k as real + 1.2;
      assert m <= k + 1;
    }
  }

  lemma TotalFollowsNet(s: real, t: real, annual: bool, exempt: bool)
    requires 0.0 <= Net(s, annual) <= Net(t, annual)
    ensures GrandTotal(s, annual, exempt) <= GrandTotal(t, annual, exempt)
  {
    hide Net, Round;
    var rate := if exempt then 0.0 else TAX_RATE;
    RateIsMonotone(Net(s, annual), Net(t, annual), rate);
    RoundIsMonotone(Times(Net(s, annual), rate), Times(Net(t, annual), rate));
    RoundIsMonotone(Net(s, annual) + Tax(Net(s, annual), exempt) as real, Net(t, annual) + Tax(Net(t, annual), exempt) as real);
  }

  lemma RateIsMonotone(x: real, y: real, rate: real)
    requires x <= y && 0.0 <= rate
    ensures Times(x, rate) <= Times(y, rate)
  {
  }

  /** A subtotal that rises by nothing or by a cent and more never lowers the total; under
      monthly billing no rise does. */
  lemma GrandTotalIsMonotone(s: real, t: real, annual: bool, exempt: bool)
    requires 0.0 <= s && (s == t || s + 1.0 <= t || (!annual && s <= t))
    ensures GrandTotal(s, annual, exempt) <= GrandTotal(t, annual, exempt)
  {
    hide Net, GrandTotal;
    NetIsMonotone(s, t, annual);
    TotalFollowsNet(s, t, annual, exempt);
  }

  /** A subtotal just below 55 cents, where a rise by less than a cent takes the discount from 5 to 6. */
  function JustBelow(rise: real): real {
    if rise <= 0.5 then 55.0 - rise else 54.5
  }

  lemma SmallRiseFalls(rise: real, exempt: bool)
    requires 0.0 < rise < 1.0
    ensures GrandTotal(JustBelow(rise), true, exempt) > GrandTotal(JustBelow(rise) + rise, true, exempt)
  {
    var s := JustBelow(rise);
    var t := s + rise;
    assert 54.5 <= s < 55.0 <= t < 55.5;
    assert Round(s * 0.1) == 5 && Round(t * 0.1) == 6;
    assert Net(s, true) == s - 5.0 && Net(t, true) == t - 6.0;
    assert Times(s - 5.0, TAX_RATE) == (s - 5.0) * 0.18 && Times(t - 6.0, TAX_RATE) == (t - 6.0) * 0.18;
    assert Times(s - 5.0, 0.0) == 0.0 && Times(t - 6.0, 0.0) == 0.0;
    assert Tax(s - 5.0, exempt) == Tax(t - 6.0, exempt) == (if exempt then 0 else 9);
  }

  /** Exactly which rises of the subtotal are safe from every starting point: all of them under
      monthly billing, and under annual billing none that is above zero and below one cent. */
  lemma SafeRises(rise: real, annual: bool, exempt: bool)
    requires 0.0 <= rise
    ensures (forall s :: 0.0 <= s ==> GrandTotal(s, annual, exempt) <= GrandTotal(s + rise, annual, exempt))
       <==> !annual || rise == 0.0 || 1.0 <= rise
  {
    hide GrandTotal;
    if !annual || rise == 0.0 || 1.0 <= rise {
      forall s | 0.0 <= s
        ensures GrandTotal(s, annual, exempt) <= GrandTotal(s + rise, annual, exempt)
      {
        GrandTotalIsMonotone(s, s + rise, annual, exempt);
      }
    } else {
      SmallRiseFalls(rise, exempt);
    }
  }

  /** What one more feature adds to the subtotal: nothing, or at least a cent. */
  lemma FeatureRise(input: PlanInput, f: Feature)
    requires NoOverrides(input)
    ensures var s, t := Subtotal(input), Subtotal(input.(features := input.features + [f]));
      0.0 <= s && (s == t || s + 1.0 <= t)
  {
    hide FeatureCost, RawBase, RawPerDevice, Lines, Round, Or, Times, SlaPremium, QuotaAdjustment, Count;
    var larger := input.(features := input.features + [f]);
    AppendOne(input.features, f, Count(input));
    FeatureCostIsNotNegative(f);
    ClampsNeverAct(input);
    ClampsNeverAct(larger);
    CountIsPositive(input);
    SameCount(input, larger);
    var extra := SlaPremium(input.slaTier) + QuotaAdjustment(input.ticketQuota);
    RoundIsMonotone(RawBase(input.features) + extra as real, RawBase(larger.features) + extra as real);
    PerDeviceRise(RawPerDevice(input.features), FeatureCost(f).perDevice, Count(input));
  }

  lemma SameCount(input: PlanInput, other: PlanInput)
    requires input.equipmentCount == other.equipmentCount
    ensures Count(input) == Count(other)
  {
  }

  lemma PerDeviceRise(p: int, more: int, count: real)
    requires 0 <= more && 1.0 <= count
    ensures Times((p + more) as real, count) == Times(p as real, count) + Times(more as real, count)
    ensures if more == 0 then Times(more as real, count) == 0.0 else 1.0 <= Times(more as real, count)
  {
    assert (p + more) as real * count == p as real * count + more as real * count;
    if more >= 1 {
      assert 1.0 * count <= more as real * count;
    }
  }

  /** One more feature never lowers the total, for any device count, in both cycles. */
  lemma AddingAFeatureNeverLowersTheTotal(input: PlanInput, f: Feature)
    requires NoOverrides(input)
    ensures PlanCost(input).grandTotal <= PlanCost(input.(features := input.features + [f])).grandTotal
  {
    hide FeatureCost, RawBase, RawPerDevice, Lines, Round, GrandTotal, Subtotal;
    FeatureRise(input, f);
    GrandTotalIsMonotone(Subtotal(input), Subtotal(input.(features := input.features + [f])), input.annual, input.taxExempt);
  }

  /** What `more` devices above `count` add to the subtotal. */
  function DeviceRise(input: PlanInput, count: Option<real>): real {
    Times(RawPerDevice(input.features) as real, Count(input.(equipmentCount := count)) - Count(input))
  }

  lemma SubtotalRises(input: PlanInput, count: Option<real>)
    requires NoOverrides(input)
    ensures Subtotal(input.(equipmentCount := count)) == Subtotal(input) + DeviceRise(input, count)
    ensures 0.0 <= Subtotal(input)
    ensures Count(input) <= Count(input.(equipmentCount := count)) ==> 0.0 <= DeviceRise(input, count)
  {
    hide RawBase, RawPerDevice, Lines, Round, Or, SlaPremium, QuotaAdjustment, Count;
    var larger := input.(equipmentCount := count);
    ClampsNeverAct(input);
    ClampsNeverAct(larger);
    RawSumsAreNotNegative(input.features);
    var p, c, e := RawPerDevice(input.features) as real, Count(input), Count(larger);
    assert p * e == p * c + p * (e - c);
    if c <= e { TimesIsNotNegative(p, e - c); }
  }

  lemma WholeCountsRiseByCents(input: PlanInput, count: Option<real>)
    requires WholeCount(input) && WholeCount(input.(equipmentCount := count))
    requires Count(input) <= Count(input.(equipmentCount := count))
    ensures DeviceRise(input, count) == 0.0 || 1.0 <= DeviceRise(input, count)
  {
    hide RawPerDevice, Count;
    RawSumsAreNotNegative(input.features);
    var p, c, e := RawPerDevice(input.features), Count(input).Floor, Count(input.(equipmentCount := count)).Floor;
    TimesWhole(p, e - c);
    if 1 <= p && c < e {
      assert 1 <= p * (e - c);
    } else {
      assert p * (e - c) == 0;
    }
  }

  /** More devices never lower the total under monthly billing; under annual billing they do
      not when both counts are whole, or when they add nothing or at least a cent. */
  lemma AddingDevicesNeverLowersTheTotal(input: PlanInput, count: Option<real>)
    requires NoOverrides(input) && Count(input) <= Count(input.(equipmentCount := count))
    requires !input.annual || (WholeCount(input) && WholeCount(input.(equipmentCount := count)))
      || DeviceRise(input, count) == 0.0 || 1.0 <= DeviceRise(input, count)
    ensures PlanCost(input).grandTotal <= PlanCost(input.(equipmentCount := count)).grandTotal
  {
    hide RawBase, RawPerDevice, Lines, Round, GrandTotal, Subtotal, Or, Count, DeviceRise, WholeCount;
    if WholeCount(input) && WholeCount(input.(equipmentCount := count)) { WholeCountsRiseByCents(input, count); }
    SubtotalRises(input, count);
    GrandTotalIsMonotone(Subtotal(input), Subtotal(input.(equipmentCount := count)), input.annual, input.taxExempt);
  }

  const INVENTORY := Feature(Some("ASSET_LIFECYCLE"), true, [("tier", ParamValue("Basic", None))])

  lemma {:induction false} InventoryCodes()
    ensures |FEATURE_CATALOG| > 14 && FEATURE_CATALOG[14].code == "ASSET_LIFECYCLE"
    ensures forall i :: 0 <= i < 14 ==> FEATURE_CATALOG[i].code != FEATURE_CATALOG[14].code
  {
  }

  lemma {:induction false} InventoryPrices()
    ensures var rule := FEATURE_CATALOG[14].rule;
      rule.Table? && rule.base == Price(0, 0) && ValuePrice(rule.paramPricing, "tier", ParamValue("Basic", None)) == Price(0, 50)
  {
  }

  lemma {:induction false} InventoryCost()
    ensures FeatureCost(INVENTORY) == Cost(0.0, 50)
  {
    hide FEATURE_CATALOG, ValuePrice, Find;
    InventoryCodes();
    FindsAt(FEATURE_CATALOG, 14);
    InventoryPrices();
    var pricing := FEATURE_CATALOG[14].rule.paramPricing;
    assert INVENTORY.params[..0] == [];
    assert ParamsPrice(pricing, INVENTORY.params) == Price(0, 50);
  }

  /** The asset inventory at 50 cents a device, billed annually without tax. */
  function Inventory(count: real): PlanInput {
    PlanInput([INVENTORY], Some(count), true, true, Some(1.0), None, None, None)
  }

  /** Fractional counts under annual billing: at 1.1 devices the plan costs less than at 1.0998. */
  lemma {:induction false} FractionalCountsCanFall()
    ensures PlanCost(Inventory(1.0998)).grandTotal == 50 && PlanCost(Inventory(1.1)).grandTotal == 49
  {
    assert GrandTotal(54.99, true, true) == 50 && GrandTotal(55.0, true, true) == 49;
    hide *;
    InventoryTotal(1.0998);
    InventoryTotal(1.1);
  }

  lemma {:induction false} InventoryTotal(count: real)
    requires 1.0 <= count
    ensures PlanCost(Inventory(count)).grandTotal == GrandTotal(50.0 * count, true, true)
  {
    InventoryCost();
    hide FEATURE_CATALOG, FeatureCost, GrandTotal, LineOf;
    var input := Inventory(count);
    assert input.features == [] + [INVENTORY];
    AppendOne([], INVENTORY, count);
    ClampsNeverAct(input);
    assert Subtotal(input) == 50.0 * count;
  }
}
