/** The assumptions derived from telemetry (`finance_committee_packet_assumptions_engine.py`), as the
    JSON object the packet program reads. */
module FinanceAssumptions {
  import opened FinanceCommon
  import opened FinanceEngine
  import opened FinanceScenarios
  import opened JsonValue
  import opened Rounding
  import opened Text

  /** The date texts the derivation takes from the clock. */
  datatype Clock = Clock(now: string, today: string, previousMonth: string)

  function SafeFloat(c: Conversions, j: Json, default: real): real {
    var x := c.toFloat(j);
    if x.Some? then x.value else default
  }

  function SafeCount(c: Conversions, j: Json): (n: int)
    ensures 0 <= n
  {
    var n := c.toInt(j);
    if n.Some? && n.value > 0 then n.value else 0
  }

  /** `str(row.get("tier", "")).strip().lower()` */
  function LooseTier(c: Conversions, row: Object): string {
    var j := GetOr(row, "tier", JStr(""));
    Lower(Strip(if j.JStr? then j.s else c.show(j)))
  }

  /** `_index_rows`, which passes over rows without a tier. */
  function LooseIndex(c: Conversions, rows: seq<Json>, field: string, indexed: map<string, Object>)
    : Result<map<string, Object>>
    decreases rows
  {
    if rows == [] then Success(indexed)
    else if !rows[0].JObj? then Failure(field)
    else
      var tier := LooseTier(c, rows[0].fields);
      if tier == "" then LooseIndex(c, rows[1..], field, indexed)
      else if tier in indexed then Failure(field)
      else LooseIndex(c, rows[1..], field, indexed[tier := rows[0].fields])
  }

  method IndexLoosely(c: Conversions, rows: seq<Json>, field: string) returns (r: Result<map<string, Object>>)
    ensures r == LooseIndex(c, rows, field, map[])
  {
    var indexed: map<string, Object> := map[];
    assert rows[0..] == rows;
    for i := 0 to |rows|
      invariant LooseIndex(c, rows[i..], field, indexed) == LooseIndex(c, rows, field, map[])
    {
      var row := rows[i];
      assert rows[i..][1..] == rows[i + 1..];
      if !row.JObj? {
        return Failure(field);
      }
      var tier := LooseTier(c, row.fields);
      if tier != "" {
        if tier in indexed {
          return Failure(field);
        }
        indexed := indexed[tier := row.fields];
      }
    }
    return Success(indexed);
  }

  // -------------------------------------------------------------- tier by tier

  datatype LooseInputs = LooseInputs(price: real, factor: real, active: int, dunning: int, llmCost: real)

  function ReadInputs(c: Conversions, pricing: Object, subscription: Object, llm: Object): (inputs: LooseInputs)
    ensures 0.5 <= inputs.factor <= 1.0 && 0 <= inputs.active && 0 <= inputs.dunning && 0.0 <= inputs.llmCost
  {
    LooseInputs(
      SafeFloat(c, Field(pricing, "monthly_price_usd"), 0.0),
      Clamp(SafeFloat(c, Field(pricing, "annual_monthly_factor"), 1.0), 0.5, 1.0),
      SafeCount(c, Field(subscription, "active_subscriptions")),
      SafeCount(c, Field(subscription, "dunning_events")),
      Max(0.0, SafeFloat(c, Field(llm, "total_cost_usd"), 0.0)))
  }

  function LooseGross(inputs: LooseInputs): real {
    Max(0.0, inputs.price * inputs.active as real)
  }

  function BaseMix(tier: string, inputs: LooseInputs): real {
    var discount := Max(0.0, 1.0 - inputs.factor);
    var base := 0.42 + Min(0.25, inputs.active as real / 400.0) + Min(0.12, discount * 0.8);
    if tier == "enterprise" then base - 0.12 else base
  }

  function AnnualMix(tier: string, inputs: LooseInputs): real {
    Round(Clamp(BaseMix(tier, inputs), 0.25, 0.82), Two)
  }

  function BaseInfra(tier: string, inputs: LooseInputs): real {
    var gross := LooseGross(inputs);
    var llmPercent := if gross > 0.0 then inputs.llmCost / gross * 100.0 else 0.0;
    var base := 5.0 + llmPercent * 0.35;
    if tier == "starter" || tier == "growth" then base + 0.3 else base
  }

  function InfraPercent(tier: string, inputs: LooseInputs): real {
    Round(Clamp(BaseInfra(tier, inputs), 4.5, 15.0), Two)
  }

  function TierLift(tier: string): real {
    if tier == "starter" then 1.0 else if tier == "growth" then 1.2 else if tier == "pro" then 1.5 else 1.8
  }

  function BaseSupport(tier: string, inputs: LooseInputs): real {
    var rate := inputs.dunning as real / Max(inputs.active as real, 1.0);
    (4.0 + inputs.price * 0.018 + rate * 6.0) * TierLift(tier)
  }

  function SupportPerSubscription(tier: string, inputs: LooseInputs): real {
    Round(Clamp(BaseSupport(tier, inputs), 4.0, 42.0), Two)
  }

  /** The four dictionaries and two sums the tier loop fills. */
  datatype Derivation = Derivation(
    mix: map<string, real>, infra: map<string, real>, support: map<string, real>, active: map<string, int>,
    llm: real, gross: real)

  const NOTHING_DERIVED := Derivation(map[], map[], map[], map[], 0.0, 0.0)

  function DeriveTier(c: Conversions, pricing: Object, subscriptions: map<string, Object>, llm: map<string, Object>,
                      tier: string, d: Derivation): Result<Derivation> {
    var price := Field(pricing, tier);
    if !price.JObj? then Failure("pricing_reference")
    else
      var inputs := ReadInputs(c, price.fields, ObjectAt(subscriptions, tier), ObjectAt(llm, tier));
      Success(Derivation(
        d.mix[tier := AnnualMix(tier, inputs)], d.infra[tier := InfraPercent(tier, inputs)],
        d.support[tier := SupportPerSubscription(tier, inputs)], d.active[tier := inputs.active],
        d.llm + inputs.llmCost, d.gross + LooseGross(inputs)))
  }

  function DeriveTiers(c: Conversions, pricing: Object, subscriptions: map<string, Object>, llm: map<string, Object>,
                       tiers: seq<string>, d: Derivation): Result<Derivation>
    decreases tiers
  {
    if tiers == [] then Success(d)
    else
      var next :- DeriveTier(c, pricing, subscriptions, llm, tiers[0], d);
      DeriveTiers(c, pricing, subscriptions, llm, tiers[1..], next)
  }

  // ----------------------------------------------------------- what follows

  predicate Filled(d: Derivation) {
    IsTierMap(d.support) && IsTierMap(d.active)
  }

  function MeanSupport(support: map<string, real>): real
    requires IsTierMap(support)
  {
    (support["starter"] + support["growth"] + support["pro"] + support["enterprise"]) / 4.0
  }

  function CostsOf(d: Derivation): CostModel
    requires Filled(d)
  {
    CostModel(d.mix, d.infra, d.support, Round(Clamp(MeanSupport(d.support) * 1.4, 12.0, 45.0), Two))
  }

  function ConversionSignal(below: int, above: int, baseline: real): real {
    var ratio := above as real / Max(below as real, 1.0);
    Round(Clamp((ratio - baseline) * 0.8, -3.0, 3.0), Four)
  }

  function SignalsOf(d: Derivation): Signals
    requires Filled(d)
  {
    Signals(ConversionSignal(d.active["growth"], d.active["pro"], 0.25),
            ConversionSignal(d.active["pro"], d.active["enterprise"], 0.15))
  }

  function StressMultiplier(d: Derivation): real {
    Round(Clamp(1.5 + d.llm / Max(d.gross, 1.0) * 2.0, 1.4, 2.5), Two)
  }

  function MinBlended(blended: real): real {
    Round(Clamp(blended - 2.5, 60.0, 86.0), Two)
  }

  function MaxP95(p95: real): real {
    Round(Clamp(Max(p95 + 2.0, p95 * 1.2), 6.0, 35.0), Two)
  }

  function MaxDiscount(discount: real): real {
    Round(Clamp(Max(discount + 3.0, 12.0), 10.0, 35.0), Two)
  }

  function MinSignal(signal: real): real {
    Round(Clamp(signal - 0.2, -5.0, 5.0), Four)
  }

  function MinStress(stress: real): real {
    Round(Clamp(stress - 3.0, 45.0, 86.0), Two)
  }

  function DeriveThresholds(m: Metrics): Thresholds {
    Thresholds(MinBlended(m.blended), MaxP95(m.p95), MaxDiscount(m.discount), MinSignal(m.growthToPro),
               MinSignal(m.proToEnterprise), MinStress(m.stress), 2)
  }

  /** The single synthesized close before the current window. */
  function PriorBlended(blended: real, minBlended: real): real {
    Round(Clamp(Max(blended + 1.0, minBlended + 0.5), 45.0, 95.0), Two)
  }

  /** The self-hosting costs, in the order of their keys. */
  function SelfHosted(effective: real): seq<real> {
    var arr := effective * 12.0;
    [Round(Max(220000.0, arr * 0.28), Two), Round(Max(70000.0, arr * 0.055), Two),
     Round(Max(45000.0, arr * 0.035), Two), Round(Max(55000.0, arr * 0.045), Two),
     Round(Max(22000.0, arr * 0.018), Two)]
  }

  const SELF_HOSTED_KEYS := ["annual_staffing_usd", "annual_oncall_usd", "annual_security_compliance_usd",
                             "annual_infra_ops_usd", "annual_tooling_usd"]

  datatype Assumptions = Assumptions(
    capturedAt: string, windowLabel: string, thresholds: Thresholds, costs: CostModel, signals: Signals,
    multiplier: real, prior: Close, selfHosted: seq<real>)

  function WindowLabel(c: Conversions, window: Object, today: string): string {
    var j := GetOr(window, "label", JStr(""));
    var text := Strip(if j.JStr? then j.s else c.show(j));
    if text == "" then today else text
  }

  /** The part of the derivation after the tier loop. */
  function Conclude(c: Conversions, telemetry: Object, clock: Clock, d: Derivation): Result<Assumptions>
    requires Filled(d)
  {
    var rows :- UnitEconomics(c, telemetry, CostsOf(d));
    var measured :- Measure(c, rows, telemetry, SignalsOf(d), StressMultiplier(d));
    var window := Field(telemetry, "window");
    if !window.JObj? then Failure("window")
    else
      var metrics := measured.0;
      var thresholds := DeriveThresholds(metrics);
      Success(Assumptions(
        clock.now, WindowLabel(c, window.fields, clock.today), thresholds, CostsOf(d), SignalsOf(d),
        StressMultiplier(d), Close(clock.previousMonth, PriorBlended(metrics.blended, thresholds.minBlended)),
        SelfHosted(measured.1.effective)))
  }

  /** `derive_assumptions_inputs` */
  function Derive(c: Conversions, telemetry: Object, clock: Clock): Result<Assumptions> {
    var pricing := Field(telemetry, "pricing_reference");
    if !pricing.JObj? then Failure("pricing_reference")
    else
      var subscriptionRows :- ListField(telemetry, "tier_subscription_snapshot");
      var subscriptions :- LooseIndex(c, subscriptionRows, "tier_subscription_snapshot", map[]);
      var llmRows :- ListField(telemetry, "tier_llm_usage");
      var llm :- LooseIndex(c, llmRows, "tier_llm_usage", map[]);
      var d :- DeriveTiers(c, pricing.fields, subscriptions, llm, TRACKED_TIERS, NOTHING_DERIVED);
      DerivedTiers(c, pricing.fields, subscriptions, llm, TRACKED_TIERS, NOTHING_DERIVED);
      Conclude(c, telemetry, clock, d)
  }

  method DeriveAssumptionsInputs(c: Conversions, telemetry: Object, clock: Clock) returns (r: Result<Assumptions>)
    ensures r == Derive(c, telemetry, clock)
  {
    var pricing := Field(telemetry, "pricing_reference");
    if !pricing.JObj? {
      return Failure("pricing_reference");
    }
    var subscriptionRows :- ListField(telemetry, "tier_subscription_snapshot");
    var indexed := IndexLoosely(c, subscriptionRows, "tier_subscription_snapshot");
    var subscriptions :- indexed;
    var llmRows :- ListField(telemetry, "tier_llm_usage");
    indexed := IndexLoosely(c, llmRows, "tier_llm_usage");
    var llm :- indexed;
    var d := NOTHING_DERIVED;
    assert TRACKED_TIERS[0..] == TRACKED_TIERS;
    for i := 0 to |TRACKED_TIERS|
      invariant DeriveTiers(c, pricing.fields, subscriptions, llm, TRACKED_TIERS[i..], d)
                == DeriveTiers(c, pricing.fields, subscriptions, llm, TRACKED_TIERS, NOTHING_DERIVED)
    {
      assert TRACKED_TIERS[i..][1..] == TRACKED_TIERS[i + 1..];
      d :- DeriveTier(c, pricing.fields, subscriptions, llm, TRACKED_TIERS[i], d);
    }
    DerivedTiers(c, pricing.fields, subscriptions, llm, TRACKED_TIERS, NOTHING_DERIVED);
    return Conclude(c, telemetry, clock, d);
  }

  // ------------------------------------------------------------------ ranges

  predicate TierInRange(d: Derivation, tier: string) {
    && tier in d.mix && tier in d.infra && tier in d.support && tier in d.active
    && 0.25 <= d.mix[tier] <= 0.82 && 4.5 <= d.infra[tier] <= 15.0 && 4.0 <= d.support[tier] <= 42.0
    && 0 <= d.active[tier]
  }

  lemma MixClamped(tier: string, inputs: LooseInputs)
    ensures 0.25 <= AnnualMix(tier, inputs) <= 0.82
  {
    ClampRounds(BaseMix(tier, inputs), 0.25, 0.82, Two);
  }

  lemma InfraClamped(tier: string, inputs: LooseInputs)
    ensures 4.5 <= InfraPercent(tier, inputs) <= 15.0
  {
    ClampRounds(BaseInfra(tier, inputs), 4.5, 15.0, Two);
  }

  lemma SupportClamped(tier: string, inputs: LooseInputs)
    ensures 4.0 <= SupportPerSubscription(tier, inputs) <= 42.0
  {
    ClampRounds(BaseSupport(tier, inputs), 4.0, 42.0, Two);
  }

  lemma DeriveTierInRange(c: Conversions, pricing: Object, subscriptions: map<string, Object>, llm: map<string, Object>,
                          tier: string, d: Derivation)
    requires DeriveTier(c, pricing, subscriptions, llm, tier, d).Success?
    ensures TierInRange(DeriveTier(c, pricing, subscriptions, llm, tier, d).value, tier)
  {
    var inputs := ReadInputs(c, Field(pricing, tier).fields, ObjectAt(subscriptions, tier), ObjectAt(llm, tier));
    MixClamped(tier, inputs);
    InfraClamped(tier, inputs);
    SupportClamped(tier, inputs);
  }

  /** The dictionaries have exactly the tracked tiers, with values in range. */
  lemma {:induction false} DerivedTiers(c: Conversions, pricing: Object, subscriptions: map<string, Object>,
                                        llm: map<string, Object>, tiers: seq<string>, d: Derivation)
    requires DeriveTiers(c, pricing, subscriptions, llm, tiers, d).Success?
    ensures var r := DeriveTiers(c, pricing, subscriptions, llm, tiers, d).value;
            && (forall tier | tier in tiers || TierInRange(d, tier) :: TierInRange(r, tier))
            && (forall tier :: tier in r.mix <==> tier in d.mix || tier in tiers)
            && (forall tier :: tier in r.infra <==> tier in d.infra || tier in tiers)
            && (forall tier :: tier in r.support <==> tier in d.support || tier in tiers)
    decreases tiers
  {
    if tiers != [] {
      var next := DeriveTier(c, pricing, subscriptions, llm, tiers[0], d).value;
      DeriveTierInRange(c, pricing, subscriptions, llm, tiers[0], d);
      DerivedTiers(c, pricing, subscriptions, llm, tiers[1..], next);
      assert forall tier :: tier in tiers <==> tier == tiers[0] || tier in tiers[1..];
    }
  }

  // ------------------------------------------------------- the JSON object

  function TierMultipliers(starter: real, growth: real, pro: real, enterprise: real): Object {
    map["starter" := JReal(starter), "growth" := JReal(growth), "pro" := JReal(pro), "enterprise" := JReal(enterprise)]
  }

  const ONES := TierMultipliers(1.0, 1.0, 1.0, 1.0)

  const BASELINE := ScenarioJson("baseline", ONES, ONES)

  const RETENTION :=
    ScenarioJson("pro_price_plus_15_growth_retention",
                 TierMultipliers(1.0, 0.99, 0.96, 1.02), TierMultipliers(1.0, 1.0, 1.15, 1.0))

  const EXPANSION := ScenarioJson("enterprise_expansion_signal", TierMultipliers(1.0, 1.01, 1.03, 1.08), ONES)

  const SCENARIOS := [BASELINE, RETENTION, EXPANSION]

  const SCENARIO_MODELS := JObj(map["price_sensitivity" := JList(SCENARIOS)])

  const INFRA_KEY := "infra_cogs_percent_of_" + "effective_mrr_by_tier"
  const SUPPORT_KEY := "support_cogs_per_active_" + "subscription_usd_by_tier"
  const GROWTH_KEY := "growth_to_pro_" + "conversion_mom_delta_percent"
  const ENTERPRISE_KEY := "pro_to_enterprise_" + "conversion_mom_delta_percent"

  function SignalsJson(signals: Signals): Json {
    JObj(map[GROWTH_KEY := JReal(signals.growthToPro), ENTERPRISE_KEY := JReal(signals.proToEnterprise)])
  }

  function CloseJson(close: Close): Json {
    JObj(map["month" := JStr(close.month), "blended_gross_margin_percent" := JReal(close.blended)])
  }

  function SelfHostedJson(costs: seq<real>): Json {
    JObj(map i | 0 <= i < |SELF_HOSTED_KEYS| && i < |costs| :: SELF_HOSTED_KEYS[i] := JReal(costs[i]))
  }

  function EstimatesJson(a: Assumptions): Object {
    map["captured_at" := JStr(a.capturedAt),
        "source_window_label" := JStr(a.windowLabel),
        "thresholds" := ThresholdsJson(a.thresholds),
        "annual_mix_by_tier" := TierJson(a.costs.annualMix),
        INFRA_KEY := TierJson(a.costs.infraPercent),
        SUPPORT_KEY := TierJson(a.costs.supportPerSubscription)]
  }

  function ModelsJson(a: Assumptions): Object {
    map["support_cogs_per_dunning_event_usd" := JReal(a.costs.supportPerDunning),
        "conversion_signals" := SignalsJson(a.signals),
        "stress_scenario" := JObj(map["infra_cost_multiplier" := JReal(a.multiplier)]),
        "close_history" := JList([CloseJson(a.prior)]),
        "scenario_models" := SCENARIO_MODELS,
        "self_hosted_tco_inputs" := SelfHostedJson(a.selfHosted)]
  }

  /** What the derivation returns to its caller. */
  function ToJson(a: Assumptions): Object {
    EstimatesJson(a) + ModelsJson(a)
  }
}
