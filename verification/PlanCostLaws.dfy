/** Laws of the pricing engine: the shown figures add up, the order of the features does not matter,
    and line items reconcile with the subtotal up to a known residue. */
module PlanCostLaws {
  import opened Wrappers
  import opened PlanCatalog
  import opened PlanCosts

  predicate NoOverrides(input: PlanInput) {
    input.manualPrice.None? && input.manualPerDevicePrice.None?
  }

  /** The device count that prices the plan is a whole number. */
  predicate WholeCount(input: PlanInput) {
    Count(input) == Count(input).Floor as real
  }

  // ----- Prices are never negative -----------------------------------------------------------

  lemma FeatureCostIsNotNegative(f: Feature)
    ensures 0.0 <= FeatureCost(f).base && 0 <= FeatureCost(f).perDevice
  {
    hide FEATURE_CATALOG, RuleCost;
    if f.included && f.code.Some? && Find(FEATURE_CATALOG, f.code.value).Some? {
      CostsAreNotNegative(Find(FEATURE_CATALOG, f.code.value).value, f.params);
    }
  }

  lemma {:induction false} RawSumsAreNotNegative(features: seq<Feature>)
    ensures 0.0 <= RawBase(features) && 0 <= RawPerDevice(features)
  {
    hide FeatureCost;
    if features != [] {
      RawSumsAreNotNegative(features[..|features| - 1]);
      FeatureCostIsNotNegative(features[|features| - 1]);
    }
  }

  /** Without overrides none of the three `Math.max(0, ...)` clamps ever changes anything,
      not even for a fractional device count. */
  lemma ClampsNeverAct(input: PlanInput)
    requires NoOverrides(input)
    ensures SuggestedBase(input)
         == Round(RawBase(input.features) + (SlaPremium(input.slaTier) + QuotaAdjustment(input.ticketQuota)) as real) as real
    ensures EffectivePerDevice(input) == RawPerDevice(input.features) as real
    ensures 0.0 <= Subtotal(input)
    ensures Net(Subtotal(input), input.annual) == Subtotal(input) - Discount(Subtotal(input), input.annual) as real
  {
    hide RawBase, RawPerDevice, SlaPremium, QuotaAdjustment, Round, Or, Times, Discount;
    var extra := SlaPremium(input.slaTier) + QuotaAdjustment(input.ticketQuota);
    RawSumsAreNotNegative(input.features);
    ExtrasAreNotNegative(input);
    RoundShift(RawBase(input.features), extra);
    RoundIsMonotone(0.0, RawBase(input.features));
    RoundShift(0.0, RawPerDevice(input.features));
    assert RawPerDevice(input.features) as real == 0.0 + RawPerDevice(input.features) as real;
    TimesIsNotNegative(EffectivePerDevice(input), Count(input));
    DiscountFits(Subtotal(input), input.annual);
  }

  lemma ExtrasAreNotNegative(input: PlanInput)
    ensures 0 <= SlaPremium(input.slaTier) && 0 <= QuotaAdjustment(input.ticketQuota)
  {
  }

  lemma CountIsPositive(input: PlanInput)
    ensures 1.0 <= Count(input) && 1 <= Count(input).Floor
  {
  }

  lemma TimesIsNotNegative(x: real, y: real)
    requires 0.0 <= x && 0.0 <= y
    ensures 0.0 <= Times(x, y)
  {
  }

  lemma DiscountFits(subtotal: real, annual: bool)
    requires 0.0 <= subtotal
    ensures 0 <= Discount(subtotal, annual) && Discount(subtotal, annual) as real <= subtotal
  {
  }

  // ----- Whole cents -------------------------------------------------------------------------

  /** The subtotal in whole cents. */
  function SubtotalCents(input: PlanInput): int {
    Round(RawBase(input.features)) + SlaPremium(input.slaTier) + QuotaAdjustment(input.ticketQuota)
    + RawPerDevice(input.features) * Count(input).Floor
  }

  lemma RoundIsMonotone(x: real, y: real)
    requires x <= y
    ensures Round(x) <= Round(y)
  {
  }

  lemma RoundShift(x: real, n: int)
    ensures Round(x + n as real) == Round(x) + n && Round(0.0) == 0
  {
  }

  lemma TimesWhole(x: int, y: int)
    ensures Times(x as real, y as real) == (x * y) as real
  {
  }

  lemma SubtotalIsWhole(input: PlanInput)
    requires NoOverrides(input) && WholeCount(input)
    ensures Subtotal(input) == SubtotalCents(input) as real && 0 <= SubtotalCents(input)
  {
    hide RawBase, RawPerDevice, Or, Times, SlaPremium, QuotaAdjustment, Round, Max, Count;
    ClampsNeverAct(input);
    RoundShift(RawBase(input.features), SlaPremium(input.slaTier) + QuotaAdjustment(input.ticketQuota));
    TimesWhole(RawPerDevice(input.features), Count(input).Floor);
  }

  /** On whole cents the discount and the tax are integer divisions. */
  lemma TotalsInCents(p: int, annual: bool, exempt: bool)
    requires 0 <= p
    ensures var d := if annual then (p + 5) / 10 else 0;
      var tax := if exempt then 0 else (18 * (p - d) + 50) / 100;
      && Discount(p as real, annual) == d
      && Net(p as real, annual) == (p - d) as real
      && Tax(Net(p as real, annual), exempt) == tax
      && GrandTotal(p as real, annual, exempt) == p - d + tax
  {
    var d := if annual then (p + 5) / 10 else 0;
    if annual { TenthRounds(p); }
    EighteenPercentRounds(p - d);
  }

  lemma TenthRounds(p: int)
    ensures Round(p as real * 0.1) == (p + 5) / 10
  {
    var q := (p + 5) / 10;
    assert 10 * q <= p + 5 < 10 * q + 10;
    assert q as real <= p as real * 0.1 + 0.5 < q as real + 1.0;
  }

  lemma EighteenPercentRounds(net: int)
    ensures Round(Times(net as real, TAX_RATE)) == (18 * net + 50) / 100
    ensures Round(Times(net as real, 0.0)) == 0
  {
    var q := (18 * net + 50) / 100;
    assert 100 * q <= 18 * net + 50 < 100 * q + 100;
    assert q as real <= net as real * 0.18 + 0.5 < q as real + 1.0;
  }

  // ----- The figures shown add up ------------------------------------------------------------------

  /** For every input: net and tax add up to the total; base and hardware add up to the subtotal
      exactly when the base is in whole cents; subtotal and discount give the net exactly when the
      discounted price is not below minus half a cent. */
  lemma FiguresAddUp(input: PlanInput)
    ensures var r := PlanCost(input); var discounted := Subtotal(input) - r.annualDiscount as real;
      && r.grandTotal == r.netSubtotal + r.taxAmount
      && r.annualContractValue == 12 * r.grandTotal
      && (r.preDiscountSubtotal as real == r.effectiveBase + r.hardwareSubtotal as real
          <==> r.effectiveBase == r.effectiveBase.Floor as real)
      && (r.netSubtotal == r.preDiscountSubtotal - r.annualDiscount <==> -0.5 <= discounted)
  {
    hide RawBase, RawPerDevice, Lines, Subtotal, SuggestedBase, EffectiveBase, EffectivePerDevice, Tax, Discount, Times, Round, Count;
    var s := Subtotal(input);
    var d, net := Discount(s, input.annual), Net(s, input.annual);
    var tax := Tax(net, input.taxExempt);
    RoundShift(net, tax);
    WholeIsRound(12 * (Round(net) + tax));
    assert (Round(net) + tax) as real * 12.0 == (12 * (Round(net) + tax)) as real;
    RoundMinus(s, d);
    RoundToZero(s - d as real);
    SumRounds(EffectiveBase(input), Times(EffectivePerDevice(input), Count(input)));
    SubtotalIs(input);
  }

  lemma SubtotalIs(input: PlanInput)
    ensures Subtotal(input) == EffectiveBase(input) + Times(EffectivePerDevice(input), Count(input))
  {
  }

  lemma RoundMinus(x: real, n: int)
    ensures Round(x - n as real) == Round(x) - n
  {
  }

  /** Cutting a negative amount off at zero is invisible down to minus half a cent. */
  lemma RoundToZero(x: real)
    ensures Round(Max(0.0, x)) == Round(x) <==> -0.5 <= x
  {
  }

  lemma SumRounds(x: real, y: real)
    ensures Round(x + y) as real == x + Round(y) as real <==> x == x.Floor as real
  {
    hide Round;
    if x == x.Floor as real { RoundShift(y, x.Floor); }
    assert (Round(x + y) - Round(y)) as real == Round(x + y) as real - Round(y) as real;
  }

  // ----- The order of the features does not matter ---------------------------------------------------

  lemma {:induction false} TakeOut(features: seq<Feature>, i: nat)
    requires i < |features|
    ensures var rest := features[..i] + features[i + 1..]; var cost := FeatureCost(features[i]);
      RawBase(features) == RawBase(rest) + cost.base && RawPerDevice(features) == RawPerDevice(rest) + cost.perDevice
  {
    hide FeatureCost, LineOf, Lines;
    var n, last := |features| - 1, features[|features| - 1];
    var shorter := features[..n];
    if i < n {
      TakeOut(shorter, i);
      assert features[..i] + features[i + 1..] == shorter[..i] + shorter[i + 1..] + [last];
      AppendOne(shorter[..i] + shorter[i + 1..], last, 0.0);
    } else {
      assert features[..i] + features[i + 1..] == shorter;
    }
  }

  function LineBag(f: Feature, count: real): multiset<LineItem> {
    if f.included then multiset{LineOf(f, count)} else multiset{}
  }

  lemma {:induction false} TakeOutLine(features: seq<Feature>, i: nat, count: real)
    requires i < |features|
    ensures multiset(Lines(features, count))
         == multiset(Lines(features[..i] + features[i + 1..], count)) + LineBag(features[i], count)
  {
    hide Lines, LineBag;
    var n, last := |features| - 1, features[|features| - 1];
    var shorter := features[..n];
    assert features == shorter + [last];
    LinesBag(shorter, last, count);
    if i < n {
      TakeOutLine(shorter, i, count);
      var rest := shorter[..i] + shorter[i + 1..];
      assert features[..i] + features[i + 1..] == rest + [last];
      LinesBag(rest, last, count);
    } else {
      assert features[..i] + features[i + 1..] == shorter;
    }
  }

  lemma LinesBag(features: seq<Feature>, f: Feature, count: real)
    ensures multiset(Lines(features + [f], count)) == multiset(Lines(features, count)) + LineBag(f, count)
  {
    hide FeatureCost, LineOf, RawBase, RawPerDevice, Lines;
    AppendOne(features, f, count);
  }

  lemma FindLast(s: seq<Feature>, t: seq<Feature>) returns (i: nat)
    requires s != [] && multiset(s) == multiset(t)
    ensures i < |t| && t[i] == s[|s| - 1]
    ensures multiset(s[..|s| - 1]) == multiset(t[..i] + t[i + 1..])
  {
    var n := |s| - 1;
    assert s[n] in multiset(t);
    i :| 0 <= i < |t| && t[i] == s[n];
    Without(s, n);
    Without(t, i);
    assert s[..n] + s[n + 1..] == s[..n];
  }

  lemma Without<T>(s: seq<T>, i: nat)
    requires i < |s|
    ensures multiset(s[..i] + s[i + 1..]) == multiset(s) - multiset{s[i]}
  {
    assert s == s[..i] + [s[i]] + s[i + 1..];
  }

  lemma {:induction false} SumsIgnoreOrder(s: seq<Feature>, t: seq<Feature>, count: real)
    requires multiset(s) == multiset(t)
    ensures RawBase(s) == RawBase(t) && RawPerDevice(s) == RawPerDevice(t)
    ensures multiset(Lines(s, count)) == multiset(Lines(t, count))
    decreases |s|
  {
    hide FeatureCost, LineOf, RawBase, RawPerDevice, Lines;
    if s == [] {
      assert |multiset(t)| == 0;
    } else {
      var n := |s| - 1;
      var i := FindLast(s, t);
      assert s[..n] + s[n + 1..] == s[..n];
      TakeOut(s, n);
      TakeOut(t, i);
      TakeOutLine(s, n, count);
      TakeOutLine(t, i, count);
      SumsIgnoreOrder(s[..n], t[..i] + t[i + 1..], count);
    }
  }

  /** Permuting the features leaves every figure unchanged and only permutes the line items. */
  lemma OrderDoesNotMatter(input: PlanInput, features: seq<Feature>)
    requires multiset(features) == multiset(input.features)
    ensures PlanCost(input.(features := features)).(lineItems := []) == PlanCost(input).(lineItems := [])
    ensures multiset(PlanCost(input.(features := features)).lineItems) == multiset(PlanCost(input).lineItems)
  {
    hide FeatureCost, RawBase, RawPerDevice, Lines, Round, Max, Or, Times;
    SumsIgnoreOrder(features, input.features, Count(input));
  }

  // ----- Service levels ----------------------------------------------------------------------------------

  /** The minutes as given, a missing number being the default. */
  function Minutes(given: Option<real>, byDefault: real): real {
    if given.Some? then given.value else byDefault
  }

  /** The price bracket of a critical response time. */
  function Bracket(minutes: real): int {
    if minutes <= 15.0 then 0 else if minutes <= 30.0 then 1 else 2
  }

  /** For any two tiers, missing, zero or negative minutes included: a slower one never costs
      more, unless the faster one gives zero minutes for high priority, which are priced as the
      default of 60, the slower one at most 30, and both are in one bracket otherwise. */
  lemma SlowerIsNotDearerExactly(fast: SlaTier, slow: SlaTier)
    requires Minutes(fast.critical, 15.0) <= Minutes(slow.critical, 15.0)
    requires Minutes(fast.high, 60.0) <= Minutes(slow.high, 60.0)
    ensures SlaPremium(Some(slow)) <= SlaPremium(Some(fast))
       <==> !(&& Minutes(fast.high, 60.0) == 0.0 && 0.0 < Minutes(slow.high, 60.0) <= 30.0
              && Bracket(Minutes(fast.critical, 15.0)) == Bracket(Minutes(slow.critical, 15.0)))
  {
  }

  /** A larger ticket quota never costs less, and an unlimited one most. */
  lemma MoreTicketsAreNotCheaper(few: real, many: Option<real>)
    requires many.Some? ==> few <= many.value
    ensures QuotaAdjustment(Some(few)) <= QuotaAdjustment(many)
  {
  }

  // ----- Line items against the subtotal ---------------------------------------------------------------

  /** What rounding a feature's base price drops: zero for whole cents, otherwise from -1/2 up to 1/2. */
  function Residue(f: Feature): real {
    FeatureCost(f).base - Round(FeatureCost(f).base) as real
  }

  function ResidueSum(features: seq<Feature>): real {
    if features == [] then 0.0
    else ResidueSum(features[..|features| - 1]) + Residue(features[|features| - 1])
  }

  /** How many base prices are not in whole cents. */
  function FractionalBases(features: seq<Feature>): nat {
    if features == [] then 0
    else FractionalBases(features[..|features| - 1]) + (if Residue(features[|features| - 1]) != 0.0 then 1 else 0)
  }

  /** A feature counts exactly when its base price is not in whole cents. */
  lemma {:induction false} OneFractionalBase(features: seq<Feature>, f: Feature)
    ensures FractionalBases([]) == 0
    ensures FractionalBases(features + [f]) == FractionalBases(features)
              + (if FeatureCost(f).base == FeatureCost(f).base.Floor as real then 0 else 1)
  {
    hide FeatureCost, Round;
    assert (features + [f])[..|features|] == features;
    WholeHasNoResidue(FeatureCost(f).base);
  }

  lemma WholeHasNoResidue(x: real)
    ensures x - Round(x) as real == 0.0 <==> x == x.Floor as real
  {
    hide Round;
    if x == x.Floor as real { WholeIsRound(x.Floor); }
    FloorOfWhole(Round(x));
  }

  lemma FloorOfWhole(n: int)
    ensures (n as real).Floor == n
  {
  }

  function LineTotal(lines: seq<LineItem>): int {
    if lines == [] then 0 else LineTotal(lines[..|lines| - 1]) + lines[|lines| - 1].total
  }

  lemma LineTotalAppend(lines: seq<LineItem>, line: LineItem)
    ensures LineTotal(lines + [line]) == LineTotal(lines) + line.total
  {
    assert (lines + [line])[..|lines|] == lines;
  }

  lemma LineOfWhole(f: Feature, n: int)
    ensures LineOf(f, n as real).total as real
         == FeatureCost(f).base - Residue(f) + (FeatureCost(f).perDevice * n) as real
  {
    hide FeatureCost, Times, Round;
    TimesWhole(FeatureCost(f).perDevice, n);
    RoundShift(FeatureCost(f).base, FeatureCost(f).perDevice * n);
  }

  lemma {:induction false} LineTotalIs(features: seq<Feature>, n: int)
    ensures LineTotal(Lines(features, n as real)) as real
         == RawBase(features) - ResidueSum(features) + (RawPerDevice(features) * n) as real
  {
    hide FeatureCost, LineOf, Residue;
    if features != [] {
      var k, last := |features| - 1, features[|features| - 1];
      LineTotalIs(features[..k], n);
      assert features == features[..k] + [last];
      AppendOne(features[..k], last, n as real);
      if last.included {
        LineTotalAppend(Lines(features[..k], n as real), LineOf(last, n as real));
        LineOfWhole(last, n);
      } else {
        FreeHasNoResidue(last);
      }
      Distribute(RawPerDevice(features[..k]), FeatureCost(last).perDevice, n);
    }
  }

  lemma FreeHasNoResidue(f: Feature)
    requires FeatureCost(f) == Cost(0.0, 0)
    ensures Residue(f) == 0.0
  {
    hide FeatureCost;
  }

  lemma Distribute(a: int, b: int, n: int)
    ensures (a + b) * n == a * n + b * n
  {
  }

  lemma ResidueRange(f: Feature)
    ensures -0.5 <= Residue(f) < 0.5
  {
    hide FeatureCost;
  }

  lemma {:induction false} ResidueSumRange(features: seq<Feature>)
    ensures var k := FractionalBases(features); var r := ResidueSum(features);
      if k == 0 then r == 0.0 else -0.5 * k as real <= r < 0.5 * k as real
  {
    hide Residue;
    if features != [] {
      ResidueSumRange(features[..|features| - 1]);
      ResidueRange(features[|features| - 1]);
    }
  }

  /** Only on-site support can have a base price with a fraction of a cent. */
  lemma OnlyOnsiteIsFractional(f: Feature)
    requires Residue(f) != 0.0
    ensures f.included && f.code.Some? && Find(FEATURE_CATALOG, f.code.value) == Some(OnsiteSupport)
  {
    hide FEATURE_CATALOG, RuleCost, Round;
    RoundShift(0.0, 0);
    assert FeatureCost(f) != Cost(0.0, 0);
    OnlyOnsiteRuleIsFractional(Find(FEATURE_CATALOG, f.code.value).value, f.params);
  }

  lemma OnlyOnsiteRuleIsFractional(rule: Rule, params: Params)
    ensures RuleCost(rule, params).base != Round(RuleCost(rule, params).base) as real ==> rule == OnsiteSupport
  {
    hide OnsiteSupportCost, ParamsPrice, Round, Lookup;
    match rule
    case Table(base, paramPricing) =>
      WholeIsRound(base.baseMonthly + ParamsPrice(paramPricing, params).baseMonthly);
    case CloudStorage =>
      WholeIsRound(1000);
    case OnsiteSupport =>
  }

  /** Line items plus SLA premium plus quota adjustment miss the shown subtotal by exactly the
      rounded sum of the residues. They agree if and only if that sum lies from -1/2 up to 1/2,
      always do with at most one fractional base price, and are otherwise off by at most half
      a cent per fractional base price. */
  lemma LineItemsReconcile(input: PlanInput)
    requires NoOverrides(input) && WholeCount(input)
    ensures var r := PlanCost(input); var residues := ResidueSum(input.features);
      var shown := LineTotal(r.lineItems) + r.slaPremium + r.quotaAdjustment;
      var k := FractionalBases(input.features);
      && r.preDiscountSubtotal == shown + Round(residues)
      && (r.preDiscountSubtotal == shown <==> -0.5 <= residues < 0.5)
      && -(k / 2) <= r.preDiscountSubtotal - shown <= k / 2
  {
    var residues, k := ResidueSum(input.features), FractionalBases(input.features);
    SubtotalShown(input);
    ResidueSumRange(input.features);
    RoundWithin(residues, k);
  }

  lemma RoundWithin(r: real, k: nat)
    requires if k == 0 then r == 0.0 else -0.5 * k as real <= r < 0.5 * k as real
    ensures Round(r) == 0 <==> -0.5 <= r < 0.5
    ensures -(k / 2) <= Round(r) <= k / 2
  {
    assert 2 * (k / 2) <= k <= 2 * (k / 2) + 1;
    assert 2.0 * (k / 2) as real <= k as real <= 2.0 * (k / 2) as real + 1.0;
  }

  lemma SubtotalShown(input: PlanInput)
    requires NoOverrides(input) && WholeCount(input)
    ensures var r := PlanCost(input);
      r.preDiscountSubtotal
      == LineTotal(r.lineItems) + r.slaPremium + r.quotaAdjustment + Round(ResidueSum(input.features))
  {
    hide FeatureCost, RawBase, RawPerDevice, Lines, ResidueSum, LineTotal, SlaPremium, QuotaAdjustment, GrandTotal, Net, Tax,
      Discount, Times, Round, Max, Or, SuggestedBase, Subtotal;
    var n := Count(input).Floor;
    SubtotalIsWhole(input);
    WholeIsRound(SubtotalCents(input));
    LineTotalIs(input.features, n);
    var whole := LineTotal(Lines(input.features, n as real)) - RawPerDevice(input.features) * n;
    RoundShift(ResidueSum(input.features), whole);
    assert RawBase(input.features) == ResidueSum(input.features) + whole as real;
  }

  lemma {:induction false} FindsAt(items: seq<Item>, k: nat)
    requires k < |items| && forall i :: 0 <= i < k ==> items[i].code != items[k].code
    ensures Find(items, items[k].code) == Some(items[k].rule)
  {
    if k > 0 { FindsAt(items[1..], k - 1); }
  }

  /** On-site support for 0.333 hours costs 2164.5 cents. */
  const SHORT_VISITS := Feature(Some("ONSITE_SUPPORT"), true, [("hours", ParamValue("0.333", Some(0.333)))])

  lemma {:induction false} OnsiteIsListed()
    ensures |FEATURE_CATALOG| > 6 && FEATURE_CATALOG[6] == Item("ONSITE_SUPPORT", OnsiteSupport)
    ensures forall i :: 0 <= i < 6 ==> FEATURE_CATALOG[i].code != FEATURE_CATALOG[6].code
  {
  }

  lemma {:induction false} ShortVisitsCost()
    ensures FeatureCost(SHORT_VISITS) == Cost(2164.5, 0)
  {
    hide FEATURE_CATALOG, Find;
    OnsiteIsListed();
    FindsAt(FEATURE_CATALOG, 6);
    assert Lookup(SHORT_VISITS.params, "hours") == Some(ParamValue("0.333", Some(0.333)));
    assert Lookup(SHORT_VISITS.params[1..], "emergencySla") == None;
    assert Lookup(SHORT_VISITS.params, "emergencySla") == None;
  }

  /** Two such features: the line items add up to one cent more than the subtotal. */
  lemma {:induction false} LineItemsCanMiss(input: PlanInput)
    requires NoOverrides(input) && WholeCount(input) && input.features == [SHORT_VISITS, SHORT_VISITS]
    ensures var r := PlanCost(input);
      LineTotal(r.lineItems) + r.slaPremium + r.quotaAdjustment == r.preDiscountSubtotal + 1
  {
    ShortVisitsCost();
    hide FEATURE_CATALOG, FeatureCost;
    assert Residue(SHORT_VISITS) == -0.5;
    assert input.features[..1] == [SHORT_VISITS] && [SHORT_VISITS][..0] == [];
    assert ResidueSum([SHORT_VISITS]) == -0.5;
    assert ResidueSum(input.features) == -1.0;
    LineItemsReconcile(input);
  }
}
