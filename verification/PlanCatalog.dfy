/** The feature catalog and its pricing rules. All amounts are in cents. */
module PlanCatalog {
  import opened Wrappers

  /** Rounding to whole cents: `Math.round`, which rounds a half up. */
  function Round(x: real): int {
    (x + 0.5).Floor
  }

  function Max(x: real, y: real): real {
    if x < y then y else x
  }

  /** A listed price is a natural number of cents, so it is never negative. */
  datatype Price = Price(baseMonthly: nat, perDeviceMonthly: nat)

  datatype Rule =
    | Table(base: Price, paramPricing: map<string, map<string, Price>>)
    | CloudStorage
    | OnsiteSupport

  datatype Item = Item(code: string, rule: Rule)

  /** A parameter value: its text, and the finite number it reads as, if any. */
  datatype ParamValue = ParamValue(text: string, number: Option<real>)

  /** The entries of a parameter object, in order. */
  type Params = seq<(string, ParamValue)>

  function Lookup(params: Params, key: string): Option<ParamValue> {
    if params == [] then None
    else if params[0].0 == key then Some(params[0].1)
    else Lookup(params[1..], key)
  }

  /** `Number(value) || fallback`. */
  function NumberOr(value: Option<ParamValue>, fallback: real): real {
    if value.Some? && value.value.number.Some? && value.value.number.value != 0.0
    then value.value.number.value else fallback
  }

  predicate HasText(value: Option<ParamValue>, text: string) {
    value.Some? && value.value.text == text
  }

  /** What a feature costs: a base that may have a fraction of a cent, and whole cents per device. */
  datatype Cost = Cost(base: real, perDevice: int)

  function CloudStorageCost(params: Params): Cost {
    var rawLimit := NumberOr(Lookup(params, "limit"), 25.0);
    var totalGb := if HasText(Lookup(params, "unit"), "TB") then rawLimit * 1024.0 else rawLimit;
    var additionalGb := Max(0.0, totalGb - 25.0);
    Cost(1000.0, 100 + Round(additionalGb * 6.0))
  }

  function OnsiteSupportCost(params: Params): Cost {
    var hours := NumberOr(Lookup(params, "hours"), 2.0);
    var sla := Lookup(params, "emergencySla");
    var surcharge := if HasText(sla, "Same-Day (4h)") then 4000.0 else if HasText(sla, "Best Effort") then -1500.0 else 0.0;
    Cost(Max(0.0, hours * 6500.0 + surcharge), 0)
  }

  function ValuePrice(paramPricing: map<string, map<string, Price>>, key: string, value: ParamValue): Price {
    if key in paramPricing && value.text in paramPricing[key] then paramPricing[key][value.text] else Price(0, 0)
  }

  /** The listed surcharges for a feature's parameters. */
  function ParamsPrice(paramPricing: map<string, map<string, Price>>, params: Params): Price {
    if params == [] then Price(0, 0)
    else
      var rest := ParamsPrice(paramPricing, params[..|params| - 1]);
      var last := params[|params| - 1];
      var price := ValuePrice(paramPricing, last.0, last.1);
      Price(rest.baseMonthly + price.baseMonthly, rest.perDeviceMonthly + price.perDeviceMonthly)
  }

  function RuleCost(rule: Rule, params: Params): Cost {
    match rule
    case Table(base, paramPricing) =>
      var extra := ParamsPrice(paramPricing, params);
      Cost((base.baseMonthly + extra.baseMonthly) as real, base.perDeviceMonthly + extra.perDeviceMonthly)
    case CloudStorage => CloudStorageCost(params)
    case OnsiteSupport => OnsiteSupportCost(params)
  }

  /** No parameter, however odd, makes a feature cost less than nothing. */
  lemma CostsAreNotNegative(rule: Rule, params: Params)
    ensures 0.0 <= RuleCost(rule, params).base && 0 <= RuleCost(rule, params).perDevice
  {
  }

  /** `FEATURE_CATALOG.find` by code: the first match. */
  function Find(items: seq<Item>, code: string): Option<Rule> {
    if items == [] then None
    else if items[0].code == code then Some(items[0].rule)
    else Find(items[1..], code)
  }

  const FEATURE_CATALOG: seq<Item> := [
    Item("HELPDESK_SUPPORT", Table(Price(0, 0), map[
      "type" := map[
        "Chat & Remote Only" := Price(3000, 300),
        "8x5" := Price(6000, 500),
        "24/7/365" := Price(15000, 1000),
        "Dedicated Engineer" := Price(45000, 2000),
        "VIP Concierge" := Price(80000, 3500),
        "Self-Serve / Community" := Price(0, 0)]])),
    Item("SECURITY_MONITORING", Table(Price(0, 0), map[
      "coverage" := map[
        "Automated SIEM Only" := Price(3000, 200),
        "8x5 Business Hours" := Price(5000, 300),
        "24/7 SOC" := Price(10000, 600),
        "Continuous MDR" := Price(18000, 1000)],
      "logRetention" := map[
        "30 Days" := Price(0, 0),
        "90 Days" := Price(1500, 0),
        "180 Days" := Price(3500, 0),
        "1 Year" := Price(6000, 0),
        "3 Years" := Price(12000, 0)]])),
    Item("CLOUD_STORAGE", CloudStorage),
    Item("BACKUP_INCLUDED", Table(Price(2000, 200), map[
      "frequency" := map[
        "Hourly" := Price(1500, 200),
        "Daily" := Price(0, 0),
        "Continuous" := Price(2500, 300),
        "Real-time Immutable" := Price(5000, 500)],
      "storageType" := map[
        "Cloud Only" := Price(0, 0),
        "Hybrid (Local + Cloud)" := Price(2000, 200),
        "Air-Gapped / Immutable" := Price(4500, 400)]])),
    Item("SLA_LEVEL", Table(Price(0, 0), map[
      "level" := map[
        "Bronze" := Price(0, 0),
        "Silver" := Price(4000, 0),
        "Gold" := Price(9000, 0),
        "Platinum" := Price(18000, 0)]])),
    Item("RMM_PATCH_MANAGEMENT", Table(Price(1500, 250), map[
      "schedule" := map[
        "Weekly" := Price(0, 0),
        "Bi-weekly" := Price(0, 0),
        "Monthly" := Price(0, 0),
        "Zero-Day Expedited" := Price(2500, 150)],
      "scope" := map[
        "OS Only" := Price(0, 0),
        "OS & 3rd-Party Applications" := Price(0, 100),
        "Full Infrastructure (Servers + Workstations)" := Price(3000, 300)]])),
    Item("ONSITE_SUPPORT", OnsiteSupport),
    Item("CONTENT_FILTERING", Table(Price(0, 0), map[
      "enforcement" := map[
        "DNS-Level" := Price(0, 200),
        "Agent-Based / Roaming" := Price(0, 350),
        "Gateway / Firewall" := Price(2000, 250)],
      "policyTier" := map[
        "Standard Security" := Price(0, 0),
        "Strict Compliance" := Price(1500, 50),
        "Custom Blocklists" := Price(2500, 0)]])),
    Item("PREMIUM_CONTENT_FILTERING", Table(Price(0, 0), map[
      "sslInspection" := map[
        "Deep Packet SSL Inspection" := Price(2000, 200),
        "Standard DNS Filtering" := Price(0, 0)],
      "aiThreatBlocking" := map[
        "Real-time AI Shield" := Price(1500, 150),
        "Heuristic Analysis" := Price(500, 0),
        "Standard Signatures" := Price(0, 0)]])),
    Item("EDR_SECURITY", Table(Price(0, 0), map[
      "tier" := map[
        "Next-Gen Antivirus (NGAV)" := Price(0, 300),
        "EDR with Auto-Remediation" := Price(0, 600),
        "MDR with 24/7 Threat Hunting SOC" := Price(5000, 1200)]])),
    Item("M365_BACKUP", Table(Price(0, 0), map[
      "scope" := map[
        "Full Suite (Mail, OneDrive, SharePoint, Teams)" := Price(0, 400),
        "Exchange Mail Only" := Price(0, 250),
        "Full Suite + Entra ID" := Price(1500, 550)],
      "retention" := map[
        "1 Year" := Price(0, 0),
        "3 Years" := Price(0, 50),
        "7 Years" := Price(0, 100),
        "Unlimited" := Price(0, 150)]])),
    Item("EDR_M365_BACKUP", Table(Price(0, 0), map[
      "edrTier" := map[
        "Full EDR Standard" := Price(0, 900),
        "Managed XDR / 24/7 SOC" := Price(6000, 1600)]])),
    Item("VULNERABILITY_SCANNING", Table(Price(0, 0), map[
      "frequency" := map[
        "Quarterly" := Price(3000, 0),
        "Monthly" := Price(6000, 0),
        "Continuous" := Price(12000, 150),
        "Continuous + Remediation" := Price(20000, 350)]])),
    Item("IDENTITY_MFA_MANAGEMENT", Table(Price(0, 0), map[
      "provider" := map[
        "Microsoft Entra ID" := Price(0, 200),
        "Cisco Duo" := Price(1500, 400),
        "Okta" := Price(3000, 550),
        "Hardware FIDO2 Keys" := Price(5000, 400)]])),
    Item("ASSET_LIFECYCLE", Table(Price(0, 0), map[
      "tier" := map[
        "Basic" := Price(0, 50),
        "Standard" := Price(0, 150),
        "Comprehensive" := Price(2000, 250),
        "Corporate Fleet" := Price(4500, 400)]])),
    Item("VCIO_REVIEW", Table(Price(2500, 0), map[
      "frequency" := map[
        "Annual" := Price(2500, 0),
        "Semi-Annual" := Price(5000, 0),
        "Quarterly" := Price(10000, 0),
        "Monthly Strategic" := Price(25000, 0)]])),
    Item("COMPLIANCE_AUDIT", Table(Price(3000, 0), map[
      "tier" := map[
        "Basic" := Price(3000, 0),
        "Standard" := Price(7500, 0),
        "Full Framework" := Price(16000, 0)],
      "framework" := map[
        "General Best Practices" := Price(0, 0),
        "HIPAA" := Price(5000, 0),
        "PCI-DSS" := Price(6000, 0),
        "SOC 2 Type II" := Price(12000, 0),
        "ISO 27001" := Price(14000, 0),
        "NIST CSF" := Price(9000, 0),
        "CAF (Marco Común de Evaluación)" := Price(10000, 0),
        "Ley 172-13 (Protección de Datos RD)" := Price(8000, 0)]])),
    Item("REPORTING_LEVEL", Table(Price(0, 0), map[
      "level" := map[
        "Monthly Basic" := Price(0, 0),
        "Monthly Standard" := Price(1000, 0),
        "Weekly Detailed" := Price(2500, 0),
        "Executive (On-Demand)" := Price(5000, 0),
        "Custom / SOC" := Price(10000, 0)]])),
    Item("PASSWORD_MANAGER", Table(Price(0, 300), map[
      "tier" := map[
        "Individual Work Vault" := Price(0, 200),
        "Team Business Vault" := Price(1000, 350),
        "Enterprise Vault" := Price(2500, 500)]])),
    Item("DARK_WEB_MONITORING", Table(Price(2000, 0), map[
      "domainCount" := map[
        "1 Domain" := Price(2000, 0),
        "3 Domains" := Price(4500, 0),
        "5 Domains" := Price(7000, 0),
        "Unlimited Domains" := Price(12000, 0)]])),
    Item("PASSWORD_DARK_WEB", Table(Price(2800, 0), map[
      "seats" := map[
        "5 Users" := Price(1500, 0),
        "10 Users" := Price(2800, 0),
        "25 Users" := Price(6000, 0),
        "50 Users" := Price(11000, 0),
        "Unlimited Users" := Price(20000, 0)]])),
    Item("PHISHING_TRAINING", Table(Price(2000, 150), map[
      "frequency" := map[
        "Monthly Simulated Campaigns" := Price(2000, 150),
        "Bi-Monthly" := Price(1500, 100),
        "Quarterly" := Price(1000, 80)]])),
    Item("CAF_EDUCATION_AGENT", Table(Price(20000, 0), map[
      "tier" := map[
        "Standard (Periodic Self-Audit)" := Price(12000, 0),
        "Pro (Continuous CAF + PMI Engine)" := Price(20000, 0),
        "Enterprise (Multi-Campus + Dedicated MCP)" := Price(35000, 0)],
      "hosting" := map[
        "Managed Velmar MCP Cloud" := Price(5000, 0),
        "On-Premises Dedicated Proxy" := Price(12000, 0)]])),
    Item("STORE_DISCOUNT", Table(Price(0, 0), map[])),
    Item("CUSTOM_FEATURE", Table(Price(0, 0), map[]))
  ]
}
