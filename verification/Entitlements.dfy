/** Subscription entitlements: bundle expansion, the features a client holds, and the
    features one plan grants. */
module Entitlements {
  import opened Wrappers

  const FEATURE_BUNDLE_EXPANSIONS: map<string, seq<string>> := map[
    "PASSWORD_DARK_WEB" := ["PASSWORD_MANAGER", "DARK_WEB_MONITORING"],
    "EDR_M365_BACKUP" := ["EDR_SECURITY", "M365_BACKUP"],
    "PREMIUM_CONTENT_FILTERING" := ["CONTENT_FILTERING"]
  ]

  function SubFeatures(f: string): seq<string> {
    if f in FEATURE_BUNDLE_EXPANSIONS then FEATURE_BUNDLE_EXPANSIONS[f] else []
  }

  /** `f` is listed, or is part of a listed bundle; empty codes are skipped. */
  predicate Unlocks(features: set<string>, f: string) {
    (f in features && f != "") || exists b :: b in features && b != "" && f in SubFeatures(b)
  }

  // ----- The code ----------------------------------------------------------------------------

  predicate NoDuplicates(s: seq<string>) {
    forall i, j :: 0 <= i < j < |s| ==> s[i] != s[j]
  }

  function Elements(s: seq<string>): set<string> {
    set x | x in s
  }

  /** No duplicates: as many elements as entries. */
  lemma {:induction false} NoDuplicatesCounts(s: seq<string>)
    ensures NoDuplicates(s) <==> |Elements(s)| == |s|
    ensures |Elements(s)| <= |s|
  {
    if s != [] {
      var n, last := |s| - 1, s[|s| - 1];
      NoDuplicatesCounts(s[..n]);
      assert s == s[..n] + [last];
      assert Elements(s) == Elements(s[..n]) + {last};
      if last in s[..n] {
        assert Elements(s) == Elements(s[..n]);
        var i :| 0 <= i < n && s[i] == last;
      }
    }
  }

  /** `Set.add`, which keeps the order of insertion. */
  function Added(s: seq<string>, x: string): seq<string> {
    if x in s then s else s + [x]
  }

  /** What one listed code adds. */
  function Grants(f: string): set<string> {
    if f == "" then {} else {f} + Elements(SubFeatures(f))
  }

  function Expanded(features: seq<string>): set<string> {
    if features == [] then {} else Expanded(features[..|features| - 1]) + Grants(features[|features| - 1])
  }

  lemma AddedElement(s: seq<string>, x: string)
    ensures Elements(Added(s, x)) == Elements(s) + {x}
    ensures NoDuplicates(s) ==> NoDuplicates(Added(s, x))
  {
  }

  method ExpandFeatureBundles(features: seq<string>) returns (result: seq<string>)
    ensures NoDuplicates(result) && Elements(result) == Expanded(features)
  {
    hide FEATURE_BUNDLE_EXPANSIONS, Added, Elements, NoDuplicates;
    result := [];
    assert NoDuplicates([]) && Elements([]) == {} by { EmptyList(); }
    var i := 0;
    while i < |features|
      invariant 0 <= i <= |features|
      invariant NoDuplicates(result) && Elements(result) == Expanded(features[..i])
    {
      var feat := features[i];
      assert features[..i + 1][..i] == features[..i];
      i := i + 1;
      if feat == "" { continue; }
      AddedElement(result, feat);
      result := Added(result, feat);
      if feat in FEATURE_BUNDLE_EXPANSIONS {
        var subFeatures := FEATURE_BUNDLE_EXPANSIONS[feat];
        result := AddAll(result, subFeatures);
      } else {
        EmptyList();
      }
    }
    assert features[..i] == features;
  }

  /** The inner loop of the expansion. */
  method AddAll(s: seq<string>, xs: seq<string>) returns (r: seq<string>)
    requires NoDuplicates(s)
    ensures NoDuplicates(r) && Elements(r) == Elements(s) + Elements(xs)
  {
    hide Added, Elements, NoDuplicates;
    EmptyList();
    r := s;
    var j := 0;
    while j < |xs|
      invariant 0 <= j <= |xs|
      invariant NoDuplicates(r) && Elements(r) == Elements(s) + Elements(xs[..j])
    {
      AddedElement(r, xs[j]);
      OneMoreElement(xs, j);
      r := Added(r, xs[j]);
      j := j + 1;
    }
    assert xs[..j] == xs;
  }

  lemma OneMoreElement(xs: seq<string>, j: nat)
    requires j < |xs|
    ensures Elements(xs[..j + 1]) == Elements(xs[..j]) + {xs[j]}
  {
    assert xs[..j + 1] == xs[..j] + [xs[j]];
  }

  lemma EmptyList()
    ensures NoDuplicates([]) && Elements([]) == {}
  {
  }

  /** Expansion yields exactly the unlocked codes, in whatever order they are listed. */
  lemma {:induction false} ExpandedIsUnlocked(features: seq<string>, f: string)
    ensures f in Expanded(features) <==> Unlocks(Elements(features), f)
  {
    hide FEATURE_BUNDLE_EXPANSIONS, SubFeatures;
    if features != [] {
      var n, last := |features| - 1, features[|features| - 1];
      ExpandedIsUnlocked(features[..n], f);
      assert features == features[..n] + [last];
      assert Elements(features) == Elements(features[..n]) + {last};
    }
  }

  datatype Entry =
    | Code(code: string)
    | Item(itemCode: Option<string>, included: Option<bool>)
    | Other

  /** `features` is absent when it is not an array. */
  datatype Plan = Plan(id: string, features: Option<seq<Entry>>)

  datatype Subscription = Subscription(status: string, plan: string)

  predicate IsActive(s: Subscription) {
    s.status == "ACTIVE" || s.status == "EXPIRING"
  }

  function EntryCodes(e: Entry): seq<string> {
    match e
    case Code(code) => [code]
    case Item(code, included) =>
      if included != Some(false) && code.Some? && code.value != "" then [code.value] else []
    case Other => []
  }

  /** The codes a list of entries names. */
  function Named(entries: seq<Entry>): set<string> {
    if entries == [] then {} else Named(entries[..|entries| - 1]) + Elements(EntryCodes(entries[|entries| - 1]))
  }

  /** An entry names `f` as a plain code, or as an item that is not marked as excluded. */
  predicate Names(e: Entry, f: string) {
    e == Code(f) || (e.Item? && e.itemCode == Some(f) && f != "" && e.included != Some(false))
  }

  lemma {:induction false} NamedByAnEntry(entries: seq<Entry>, f: string)
    ensures f in Named(entries) <==> exists i :: 0 <= i < |entries| && Names(entries[i], f)
  {
    if entries != [] {
      var n := |entries| - 1;
      NamedByAnEntry(entries[..n], f);
      if f in Named(entries[..n]) {
        var i :| 0 <= i < n && Names(entries[..n][i], f);
        assert Names(entries[i], f);
      }
      assert f in Elements(EntryCodes(entries[n])) <==> Names(entries[n], f);
      if exists i :: 0 <= i < |entries| && Names(entries[i], f) {
        var i :| 0 <= i < |entries| && Names(entries[i], f);
        if i < n { assert Names(entries[..n][i], f); }
      }
    }
  }

  function PlanCodes(p: Option<Plan>): set<string> {
    if p.None? || p.value.features.None? then {} else Named(p.value.features.value)
  }

  function FindFirst(plans: seq<Plan>, id: string): Option<Plan> {
    if plans == [] then None else if plans[0].id == id then Some(plans[0]) else FindFirst(plans[1..], id)
  }

  /** What a `Map` filled in order holds for `id`: the last plan with it. */
  function FindLast(plans: seq<Plan>, id: string): Option<Plan> {
    if plans == [] then None
    else if plans[|plans| - 1].id == id then Some(plans[|plans| - 1])
    else FindLast(plans[..|plans| - 1], id)
  }

  method AddEntries(featureSet: seq<string>, entries: seq<Entry>) returns (r: seq<string>)
    ensures Elements(r) == Elements(featureSet) + Named(entries)
  {
    hide Added, Elements;
    EmptyList();
    r := featureSet;
    var i := 0;
    while i < |entries|
      invariant 0 <= i <= |entries|
      invariant Elements(r) == Elements(featureSet) + Named(entries[..i])
    {
      assert entries[..i + 1][..i] == entries[..i];
      match entries[i] {
        case Code(code) =>
          AddedElement(r, code);
          Singleton(code);
          r := Added(r, code);
        case Item(code, included) =>
          if included != Some(false) && code.Some? && code.value != "" {
            AddedElement(r, code.value);
            Singleton(code.value);
            r := Added(r, code.value);
          }
        case Other =>
      }
      i := i + 1;
    }
    assert entries[..i] == entries;
  }

  lemma Singleton(x: string)
    ensures Elements([x]) == {x}
  {
  }

  /** The codes named by the plans of the active subscriptions, each plan looked up in the map. */
  function SubscribedCodes(subs: seq<Subscription>, plans: seq<Plan>): set<string> {
    if subs == [] then {}
    else
      var n := |subs| - 1;
      SubscribedCodes(subs[..n], plans)
      + (if IsActive(subs[n]) then PlanCodes(FindLast(plans, subs[n].plan)) else {})
  }

  /** Whether a client's active features include `f`. */
  predicate HasFeature(subs: seq<Subscription>, plans: seq<Plan>, f: string) {
    f == "" || Unlocks(SubscribedCodes(subs, plans), f)
  }

  predicate HasPlanFeature(plans: seq<Plan>, planId: string, f: string) {
    f == "" || (planId != "" && Unlocks(PlanCodes(FindFirst(plans, planId)), f))
  }

  /** The active features of a client. */
  method ActiveFeatures(subs: seq<Subscription>, plans: seq<Plan>) returns (features: seq<string>)
    ensures NoDuplicates(features)
    ensures forall f :: f != "" ==> (f in features <==> HasFeature(subs, plans, f))
  {
    hide FEATURE_BUNDLE_EXPANSIONS, SubFeatures, Unlocks, Elements, Expanded, NoDuplicates;
    EmptyList();
    var planMap: map<string, Plan> := map[];
    var i := 0;
    while i < |plans|
      invariant 0 <= i <= |plans|
      invariant forall id :: FindLast(plans[..i], id) == (if id in planMap then Some(planMap[id]) else None)
    {
      assert plans[..i + 1][..i] == plans[..i];
      planMap := planMap[plans[i].id := plans[i]];
      i := i + 1;
    }
    assert plans[..i] == plans;
    var featureSet: seq<string> := [];
    i := 0;
    while i < |subs|
      invariant 0 <= i <= |subs|
      invariant Elements(featureSet) == SubscribedCodes(subs[..i], plans)
      invariant forall id :: FindLast(plans, id) == (if id in planMap then Some(planMap[id]) else None)
    {
      assert subs[..i + 1][..i] == subs[..i];
      var sub := subs[i];
      i := i + 1;
      assert FindLast(plans, sub.plan) == (if sub.plan in planMap then Some(planMap[sub.plan]) else None);
      if !IsActive(sub) || sub.plan !in planMap { continue; }
      var plan := planMap[sub.plan];
      if plan.features.None? { continue; }
      featureSet := AddEntries(featureSet, plan.features.value);
    }
    assert subs[..i] == subs;
    features := ExpandFeatureBundles(featureSet);
    forall f ensures f in features <==> Unlocks(SubscribedCodes(subs, plans), f) {
      ExpandedIsUnlocked(featureSet, f);
      ElementOf(features, f);
    }
  }

  method CheckPlanFeature(plans: seq<Plan>, planId: string, f: string) returns (granted: bool)
    ensures granted <==> HasPlanFeature(plans, planId, f)
  {
    hide FEATURE_BUNDLE_EXPANSIONS, SubFeatures, Unlocks, Elements, Expanded, NoDuplicates;
    EmptyList();
    if f == "" { return true; }
    if planId == "" { return false; }
    var plan := FindFirst(plans, planId);
    if plan.None? || plan.value.features.None? {
      NothingUnlocksNothing(f);
      return false;
    }
    var featureSet := AddEntries([], plan.value.features.value);
    assert Elements(featureSet) == Named(plan.value.features.value);
    var expanded := ExpandFeatureBundles(featureSet);
    ExpandedIsUnlocked(featureSet, f);
    ElementOf(expanded, f);
    granted := f in expanded;
  }

  lemma ElementOf(s: seq<string>, x: string)
    ensures x in Elements(s) <==> x in s
  {
  }

  lemma NothingUnlocksNothing(f: string)
    ensures !Unlocks({}, f)
  {
  }

  // ----- Laws of the expansion -----------------------------------------------------------------

  /** No bundle contains a bundle, and no empty code is in one. */
  lemma BundlesAreFlat(b: string, f: string)
    requires f in SubFeatures(b)
    ensures f != "" && SubFeatures(f) == []
  {
  }

  function Unlocked(features: set<string>): set<string> {
    features - {""} + set b, f | b in features && b != "" && f in SubFeatures(b) :: f
  }

  lemma UnlockedIsUnlocks(features: set<string>, f: string)
    ensures f in Unlocked(features) <==> Unlocks(features, f)
  {
    hide FEATURE_BUNDLE_EXPANSIONS, SubFeatures;
  }

  /** Expansion is extensive, idempotent, monotone and distributes over unions. */
  lemma UnlockedIsAClosure(a: set<string>, b: set<string>)
    ensures a - {""} <= Unlocked(a)
    ensures Unlocked(Unlocked(a)) == Unlocked(a)
    ensures Unlocked(a + b) == Unlocked(a) + Unlocked(b)
    ensures a <= b ==> Unlocked(a) <= Unlocked(b)
  {
    hide FEATURE_BUNDLE_EXPANSIONS, SubFeatures;
    forall c | c in Unlocked(a) ensures c != "" && (c in a || SubFeatures(c) == []) {
      if c !in a || c == "" {
        var p :| p in a && p != "" && c in SubFeatures(p);
        BundlesAreFlat(p, c);
      }
    }
  }

  // ----- Active features against plan features --------------------------------------------------

  /** Some active subscription's plan grants `f`. */
  predicate SomePlanGrants(subs: seq<Subscription>, plans: seq<Plan>, f: string) {
    exists i :: 0 <= i < |subs| && IsActive(subs[i]) && HasPlanFeature(plans, subs[i].plan, f)
  }

  /** Every lookup by id means one thing: the first and the last plan with an id unlock the same
      codes, and a plan without an id unlocks none. */
  ghost predicate LookupsAgree(plans: seq<Plan>) {
    forall id ::
      Unlocked(PlanCodes(FindLast(plans, id))) == if id == "" then {} else Unlocked(PlanCodes(FindFirst(plans, id)))
  }

  lemma LookupsAgreeOnCodes(plans: seq<Plan>)
    ensures LookupsAgree(plans) <==>
      forall id, f :: f != "" ==> (Unlocks(PlanCodes(FindLast(plans, id)), f) <==> HasPlanFeature(plans, id, f))
  {
    hide FEATURE_BUNDLE_EXPANSIONS, SubFeatures, Unlocks, Unlocked, PlanCodes, FindLast, FindFirst;
    forall s: set<string>, f: string ensures f in Unlocked(s) <==> Unlocks(s, f) {
      UnlockedIsUnlocks(s, f);
    }
    forall s: set<string> ensures "" !in Unlocked(s) {
      NoEmptyCode(s);
    }
    if forall id, f :: f != "" ==> (Unlocks(PlanCodes(FindLast(plans, id)), f) <==> HasPlanFeature(plans, id, f)) {
      forall id
        ensures Unlocked(PlanCodes(FindLast(plans, id))) == if id == "" then {} else Unlocked(PlanCodes(FindFirst(plans, id)))
      {
        var granted := if id == "" then {} else Unlocked(PlanCodes(FindFirst(plans, id)));
        assert forall f :: f in granted <==> f != "" && HasPlanFeature(plans, id, f);
        assert forall f :: f in Unlocked(PlanCodes(FindLast(plans, id))) <==> f in granted;
      }
    }
  }

  lemma NoEmptyCode(s: set<string>)
    ensures "" !in Unlocked(s)
  {
    hide FEATURE_BUNDLE_EXPANSIONS, SubFeatures;
    if "" in Unlocked(s) {
      var b :| b in s && b != "" && "" in SubFeatures(b);
      BundlesAreFlat(b, "");
    }
  }

  lemma {:induction false} SubscribedUnlocks(subs: seq<Subscription>, plans: seq<Plan>, f: string)
    ensures Unlocks(SubscribedCodes(subs, plans), f)
       <==> exists i :: 0 <= i < |subs| && IsActive(subs[i]) && Unlocks(PlanCodes(FindLast(plans, subs[i].plan)), f)
  {
    hide FEATURE_BUNDLE_EXPANSIONS, SubFeatures, PlanCodes, FindLast, IsActive;
    if subs != [] {
      var n := |subs| - 1;
      SubscribedUnlocks(subs[..n], plans, f);
    }
  }

  /** For every client and every code, a feature is active exactly when some active subscription's
      plan grants it, if and only if every lookup by id means one thing. */
  lemma ActiveExactlyWhenGranted(plans: seq<Plan>)
    ensures (forall subs, f :: f != "" ==> (HasFeature(subs, plans, f) <==> SomePlanGrants(subs, plans, f)))
       <==> LookupsAgree(plans)
  {
    hide FEATURE_BUNDLE_EXPANSIONS, Unlocks, Unlocked, PlanCodes, FindLast, FindFirst, HasPlanFeature, SubscribedCodes, LookupsAgree;
    LookupsAgreeOnCodes(plans);
    if LookupsAgree(plans) {
      forall subs, f | f != "" ensures HasFeature(subs, plans, f) <==> SomePlanGrants(subs, plans, f) {
        SubscribedUnlocks(subs, plans, f);
      }
    }
    forall id, f | f != ""
      ensures var subs := [Subscription("ACTIVE", id)];
        && (HasFeature(subs, plans, f) <==> Unlocks(PlanCodes(FindLast(plans, id)), f))
        && (SomePlanGrants(subs, plans, f) <==> HasPlanFeature(plans, id, f))
    {
      SubscribedUnlocks([Subscription("ACTIVE", id)], plans, f);
      assert [Subscription("ACTIVE", id)][0].plan == id;
    }
  }

  /** A plan list that repeats an id, where the entitlement list sees the last plan and the plan
      check the first. */
  const REPEATED_IDS := [Plan("P", Some([Code("A")])), Plan("P", Some([]))]

  lemma RepeatedIdsCanDisagree()
    ensures !LookupsAgree(REPEATED_IDS)
  {
    assert "A" in Unlocked(PlanCodes(FindFirst(REPEATED_IDS, "P")));
    assert "A" !in Unlocked(PlanCodes(FindLast(REPEATED_IDS, "P")));
  }

  predicate DistinctIds(plans: seq<Plan>) {
    && (forall i :: 0 <= i < |plans| ==> plans[i].id != "")
    && (forall i, j :: 0 <= i < j < |plans| ==> plans[i].id != plans[j].id)
  }

  lemma {:induction false} FirstIsLast(plans: seq<Plan>, id: string)
    requires DistinctIds(plans)
    ensures FindFirst(plans, id) == FindLast(plans, id)
    ensures FindFirst(plans, id).Some? ==> id != ""
  {
    if plans != [] {
      var n := |plans| - 1;
      FirstIsLast(plans[..n], id);
      FindFirstInPrefix(plans, n, id);
    }
  }

  lemma {:induction false} FindFirstInPrefix(plans: seq<Plan>, n: nat, id: string)
    requires n + 1 == |plans|
    ensures FindFirst(plans, id) == if FindFirst(plans[..n], id).Some? then FindFirst(plans[..n], id)
                                    else if plans[n].id == id then Some(plans[n]) else None
    ensures FindFirst(plans[..n], id).Some? ==> exists i :: 0 <= i < n && plans[i].id == id
  {
    if n > 0 {
      assert plans[1..][..n - 1] == plans[..n][1..];
      FindFirstInPrefix(plans[1..], n - 1, id);
    }
  }

  /** With distinct ids, none of them empty, lookups agree. */
  lemma DistinctIdsAgree(plans: seq<Plan>)
    requires DistinctIds(plans)
    ensures LookupsAgree(plans)
  {
    hide FEATURE_BUNDLE_EXPANSIONS, SubFeatures;
    LookupsAgreeOnCodes(plans);
    forall id, f | f != ""
      ensures Unlocks(PlanCodes(FindLast(plans, id)), f) <==> HasPlanFeature(plans, id, f)
    {
      FirstIsLast(plans, id);
      NothingUnlocksNothing(f);
    }
  }

  // ----- Single cases ----------------------------------------------------------------------------

  /** A subscription counts while its status is ACTIVE or EXPIRING, and no other. */
  lemma {:induction false} OnlyActiveCounts(status: string, f: string)
    requires f != ""
    ensures HasFeature([Subscription(status, "P")], [Plan("P", Some([Code(f)]))], f)
       <==> status == "ACTIVE" || status == "EXPIRING"
  {
    hide FEATURE_BUNDLE_EXPANSIONS, SubFeatures;
    var plan := Plan("P", Some([Code(f)]));
    var sub := Subscription(status, "P");
    assert FindLast([plan], "P") == Some(plan);
    assert [Code(f)][..0] == [] && [sub][..0] == [];
    assert Named([Code(f)]) == Named([]) + Elements([f]) && f in Elements([f]);
    assert SubscribedCodes([sub], [plan])
        == SubscribedCodes([], [plan]) + (if IsActive(sub) then PlanCodes(Some(plan)) else {});
    NothingUnlocksNothing(f);
  }

  /** What one entry of a plan grants: a text its code, an item its code unless it is excluded, and
      nothing without a code. */
  lemma {:induction false} OneEntry(f: string, included: Option<bool>)
    requires f != ""
    ensures Named([Code(f)]) == {f}
    ensures Named([Item(Some(f), included)]) == if included == Some(false) then {} else {f}
    ensures Named([Item(None, included)]) == Named([Item(Some(""), included)]) == Named([Other]) == {}
  {
    assert [Code(f)][..0] == [] && [Item(Some(f), included)][..0] == [] && [Item(None, included)][..0] == []
        && [Item(Some(""), included)][..0] == [] && [Other][..0] == [];
    Singleton(f);
    EmptyList();
  }

  /** What each bundle unlocks, and that nothing else is a bundle. */
  lemma TheBundles(f: string)
    ensures Unlocks({"PASSWORD_DARK_WEB"}, f)
       <==> f == "PASSWORD_DARK_WEB" || f == "PASSWORD_MANAGER" || f == "DARK_WEB_MONITORING"
    ensures Unlocks({"EDR_M365_BACKUP"}, f) <==> f == "EDR_M365_BACKUP" || f == "EDR_SECURITY" || f == "M365_BACKUP"
    ensures Unlocks({"PREMIUM_CONTENT_FILTERING"}, f) <==> f == "PREMIUM_CONTENT_FILTERING" || f == "CONTENT_FILTERING"
  {
    BundleOf("PASSWORD_DARK_WEB", f);
    BundleOf("EDR_M365_BACKUP", f);
    BundleOf("PREMIUM_CONTENT_FILTERING", f);
  }

  lemma BundleOf(b: string, f: string)
    requires b != ""
    ensures Unlocks({b}, f) <==> (f == b || f in SubFeatures(b))
  {
    hide FEATURE_BUNDLE_EXPANSIONS, SubFeatures;
    assert b in {b};
  }

  lemma OtherCodesAreNoBundles(b: string, f: string)
    requires b !in {"", "PASSWORD_DARK_WEB", "EDR_M365_BACKUP", "PREMIUM_CONTENT_FILTERING"}
    ensures Unlocks({b}, f) <==> f == b
    ensures !Unlocks({""}, f)
  {
  }

  predicate FirstAt(plans: seq<Plan>, id: string, i: nat) {
    i < |plans| && plans[i].id == id && forall j :: 0 <= j < i ==> plans[j].id != id
  }

  predicate LastAt(plans: seq<Plan>, id: string, i: nat) {
    i < |plans| && plans[i].id == id && forall j :: i < j < |plans| ==> plans[j].id != id
  }

  /** The plan check looks at the first plan with the id. */
  lemma {:induction false} FindsTheFirst(plans: seq<Plan>, id: string)
    ensures FindFirst(plans, id).None? <==> forall i :: 0 <= i < |plans| ==> plans[i].id != id
    ensures FindFirst(plans, id).Some? ==> exists i: nat :: FirstAt(plans, id, i) && plans[i] == FindFirst(plans, id).value
  {
    if plans != [] && plans[0].id == id {
      assert FirstAt(plans, id, 0);
    } else if plans != [] {
      FindsTheFirst(plans[1..], id);
      assert forall i :: 0 < i < |plans| ==> plans[i] == plans[1..][i - 1];
      if FindFirst(plans[1..], id).Some? {
        var i: nat :| FirstAt(plans[1..], id, i) && plans[1..][i] == FindFirst(plans[1..], id).value;
        assert FirstAt(plans, id, i + 1);
      }
    }
  }

  /** The entitlement list looks at the last. */
  lemma {:induction false} FindsTheLast(plans: seq<Plan>, id: string)
    ensures FindLast(plans, id).None? <==> forall i :: 0 <= i < |plans| ==> plans[i].id != id
    ensures FindLast(plans, id).Some? ==> exists i: nat :: LastAt(plans, id, i) && plans[i] == FindLast(plans, id).value
  {
    if plans != [] {
      var n: nat := |plans| - 1;
      if plans[n].id == id {
        assert LastAt(plans, id, n);
      } else {
        FindsTheLast(plans[..n], id);
        assert forall i :: 0 <= i < n ==> plans[i] == plans[..n][i];
        if FindLast(plans[..n], id).Some? {
          var i: nat :| LastAt(plans[..n], id, i) && plans[..n][i] == FindLast(plans[..n], id).value;
          assert LastAt(plans, id, i);
        }
      }
    }
  }

  /** No plan feature without a plan, every one without a code. */
  lemma NoPlanNoFeature(plans: seq<Plan>, planId: string, f: string)
    ensures HasPlanFeature(plans, planId, "") && HasFeature([], plans, "")
    ensures f != "" ==> !HasPlanFeature(plans, "", f) && !HasFeature([], plans, f)
  {
    NothingUnlocksNothing(f);
  }
}
