/** The two finance programs together: what the packet says when its assumptions and thresholds are
    derived from the telemetry it is computed from. */
module FinanceGates {
  import opened FinanceAssumptions
  import opened FinanceCommon
  import opened FinanceEngine
  import opened FinancePacket
  import opened FinanceScenarios
  import opened JsonValue
  import opened Rounding
  import opened Text

  // ---------------------------------------------------- thresholds at the floors

  /** What holds of all published metrics. */
  predicate Published(m: Metrics) {
    && OnGrid(m.blended, Two) && OnGrid(m.p95, Two) && OnGrid(m.discount, Two) && OnGrid(m.stress, Two)
    && OnGrid(m.growthToPro, Four) && OnGrid(m.proToEnterprise, Four)
  }

  lemma MetricsPublished(totals: Totals, signals: Signals, multiplier: real)
    ensures Published(MetricsOf(totals, signals, multiplier))
  {
    RoundGrid(SafeMargin(totals.effective, SumCogs(totals)), Two);
    RoundGrid(totals.worstP95, Two);
    RoundGrid(DiscountImpact(totals), Two);
    RoundGrid(signals.growthToPro, Four);
    RoundGrid(signals.proToEnterprise, Four);
    RoundGrid(SafeMargin(totals.effective, TotalCogs(totals, multiplier)), Two);
  }

  /** A floor derived by moving down from a published value and clamping is met by that value
      exactly when the value is not below the clamp. */
  lemma FloorMet(x: real, step: real, low: real, high: real, digits: Digits)
    requires OnGrid(x, digits) && OnGrid(low, digits) && OnGrid(high, digits) && low <= high && 0.0 <= step
    ensures x >= Round(Clamp(x - step, low, high), digits) <==> x >= low
  {
    ClampRounds(x - step, low, high, digits);
    if x >= low {
      RoundAtMost(Clamp(x - step, low, high), x, digits);
    }
  }

  /** A ceiling derived by moving up and clamping is met exactly when the value is not above the
      clamp. */
  lemma CeilingMet(x: real, raised: real, low: real, high: real, digits: Digits)
    requires OnGrid(x, digits) && OnGrid(low, digits) && OnGrid(high, digits) && low <= high && x <= raised
    ensures x <= Round(Clamp(raised, low, high), digits) <==> x <= high
  {
    ClampRounds(raised, low, high, digits);
    if x <= high {
      RoundAtLeast(Clamp(raised, low, high), x, digits);
    }
  }

  lemma BlendedMet(x: real)
    requires OnGrid(x, Two)
    ensures x >= MinBlended(x) <==> x >= 60.0
  {
    WholeOnGrid(60, Two);
    WholeOnGrid(86, Two);
    FloorMet(x, 2.5, 60.0, 86.0, Two);
  }

  lemma P95Met(x: real)
    requires OnGrid(x, Two) && 0.0 <= x
    ensures x <= MaxP95(x) <==> x <= 35.0
  {
    WholeOnGrid(6, Two);
    WholeOnGrid(35, Two);
    CeilingMet(x, Max(x + 2.0, x * 1.2), 6.0, 35.0, Two);
  }

  lemma DiscountMet(x: real)
    requires OnGrid(x, Two)
    ensures x <= MaxDiscount(x) <==> x <= 35.0
  {
    WholeOnGrid(10, Two);
    WholeOnGrid(35, Two);
    CeilingMet(x, Max(x + 3.0, 12.0), 10.0, 35.0, Two);
  }

  lemma StressMet(x: real)
    requires OnGrid(x, Two)
    ensures x >= MinStress(x) <==> x >= 45.0
  {
    WholeOnGrid(45, Two);
    WholeOnGrid(86, Two);
    FloorMet(x, 3.0, 45.0, 86.0, Two);
  }

  lemma SignalMet(signal: real)
    requires OnGrid(signal, Four) && -3.0 <= signal <= 3.0
    ensures signal >= MinSignal(signal)
  {
    WholeOnGrid(-5, Four);
    WholeOnGrid(5, Four);
    FloorMet(signal, 0.2, -5.0, 5.0, Four);
  }

  lemma MinBlendedInRange(blended: real)
    ensures 60.0 <= MinBlended(blended) <= 86.0 && OnGrid(MinBlended(blended), Two)
  {
    WholeOnGrid(60, Two);
    WholeOnGrid(86, Two);
    ClampRounds(blended - 2.5, 60.0, 86.0, Two);
    RoundGrid(Clamp(blended - 2.5, 60.0, 86.0), Two);
  }

  /** The synthesized prior close always meets the derived floor. */
  lemma PriorMeetsFloor(blended: real)
    ensures var floor := MinBlended(blended);
            floor <= PriorBlended(blended, floor) <= 95.0
  {
    var floor := MinBlended(blended);
    MinBlendedInRange(blended);
    AtLeastFloor(Max(blended + 1.0, floor + 0.5), floor);
  }

  lemma AtLeastFloor(value: real, floor: real)
    requires floor <= value && 60.0 <= floor <= 86.0 && OnGrid(floor, Two)
    ensures floor <= Round(Clamp(value, 45.0, 95.0), Two) <= 95.0
  {
    RoundAtLeast(Clamp(value, 45.0, 95.0), floor, Two);
    WholeOnGrid(45, Two);
    WholeOnGrid(95, Two);
    ClampRounds(value, 45.0, 95.0, Two);
  }

  /** Gates computed with the derived thresholds pass exactly at the absolute floors and ceilings,
      and the expansion gate always passes. */
  lemma GatesAtFloors(m: Metrics, month: string, current: string)
    requires Published(m) && 0.0 <= m.p95 && -3.0 <= m.growthToPro <= 3.0 && -3.0 <= m.proToEnterprise <= 3.0
    ensures var t := DeriveThresholds(m);
            var r := GateResults(m, t, [Close(month, PriorBlended(m.blended, t.minBlended)),
                                        Close(current, m.blended)]);
            && r.Success?
            && (r.value.margin <==> m.blended >= 60.0)
            && (r.value.llm <==> m.p95 <= 35.0)
            && (r.value.discount <==> m.discount <= 35.0)
            && r.value.expansion
            && (r.value.stress <==> m.stress >= 45.0)
  {
    BlendedMet(m.blended);
    P95Met(m.p95);
    DiscountMet(m.discount);
    StressMet(m.stress);
    SignalMet(m.growthToPro);
    SignalMet(m.proToEnterprise);
    PriorMeetsFloor(m.blended);
    var floor := MinBlended(m.blended);
    var history := [Close(month, PriorBlended(m.blended, floor)), Close(current, m.blended)];
    assert history[|history| - 2..] == history;
    assert history[0].blended >= floor;
  }

  // ------------------------------------------------- what the derivation returns

  /** The derivation computed these rows and metrics on the way, and everything it returns follows
      from them. */
  predicate DerivedFrom(c: Conversions, telemetry: Object, clock: Clock, a: Assumptions,
                        rows: seq<UnitRow>, m: Metrics, totals: Totals) {
    && UnitEconomics(c, telemetry, a.costs) == Success(rows)
    && Measure(c, rows, telemetry, a.signals, a.multiplier) == Success((m, totals))
    && a.thresholds == DeriveThresholds(m)
    && a.prior == Close(clock.previousMonth, PriorBlended(m.blended, a.thresholds.minBlended))
    && a.selfHosted == SelfHosted(totals.effective)
  }

  /** The clamps put every derived number inside what the packet's parser accepts. */
  predicate DerivedInRange(a: Assumptions) {
    && CostsInRange(a.costs)
    && IsExact(a.costs.annualMix) && IsExact(a.costs.infraPercent) && IsExact(a.costs.supportPerSubscription)
    && 1.4 <= a.multiplier <= 2.5
    && -3.0 <= a.signals.growthToPro <= 3.0 && -3.0 <= a.signals.proToEnterprise <= 3.0
    && ThresholdsInRange(a.thresholds) && 0.0 <= a.prior.blended <= 100.0
  }

  predicate IsExact(m: map<string, real>) {
    (forall tier | tier in m :: tier in TRACKED_TIERS) && forall tier | tier in TRACKED_TIERS :: tier in m
  }

  lemma MaxP95InRange(x: real)
    ensures 6.0 <= MaxP95(x) <= 35.0
  {
    WholeOnGrid(6, Two);
    WholeOnGrid(35, Two);
    ClampRounds(Max(x + 2.0, x * 1.2), 6.0, 35.0, Two);
  }

  lemma MaxDiscountInRange(x: real)
    ensures 10.0 <= MaxDiscount(x) <= 35.0
  {
    WholeOnGrid(10, Two);
    WholeOnGrid(35, Two);
    ClampRounds(Max(x + 3.0, 12.0), 10.0, 35.0, Two);
  }

  lemma MinStressInRange(x: real)
    ensures 45.0 <= MinStress(x) <= 86.0
  {
    WholeOnGrid(45, Two);
    WholeOnGrid(86, Two);
    ClampRounds(x - 3.0, 45.0, 86.0, Two);
  }

  lemma ThresholdsAreInRange(m: Metrics)
    ensures ThresholdsInRange(DeriveThresholds(m))
  {
    MinBlendedInRange(m.blended);
    MaxP95InRange(m.p95);
    MaxDiscountInRange(m.discount);
    MinStressInRange(m.stress);
  }

  lemma SignalsInRange(d: Derivation)
    requires Filled(d)
    ensures var signals := SignalsOf(d);
            -3.0 <= signals.growthToPro <= 3.0 && -3.0 <= signals.proToEnterprise <= 3.0
  {
    SignalInRange(d.active["growth"], d.active["pro"], 0.25);
    SignalInRange(d.active["pro"], d.active["enterprise"], 0.15);
  }

  lemma SignalInRange(below: int, above: int, baseline: real)
    ensures -3.0 <= ConversionSignal(below, above, baseline) <= 3.0
  {
    var ratio := above as real / Max(below as real, 1.0);
    WholeOnGrid(-3, Four);
    WholeOnGrid(3, Four);
    ClampRounds((ratio - baseline) * 0.8, -3.0, 3.0, Four);
  }

  lemma MultiplierInRange(d: Derivation)
    ensures 1.4 <= StressMultiplier(d) <= 2.5
  {
    ClampRounds(1.5 + d.llm / Max(d.gross, 1.0) * 2.0, 1.4, 2.5, Two);
  }

  lemma DunningInRange(support: map<string, real>)
    requires IsTierMap(support)
    ensures 12.0 <= Round(Clamp(MeanSupport(support) * 1.4, 12.0, 45.0), Two) <= 45.0
  {
    WholeOnGrid(12, Two);
    WholeOnGrid(45, Two);
    ClampRounds(MeanSupport(support) * 1.4, 12.0, 45.0, Two);
  }

  lemma ConcludedFrom(c: Conversions, telemetry: Object, clock: Clock, d: Derivation)
    returns (rows: seq<UnitRow>, m: Metrics, totals: Totals)
    requires Filled(d) && CostsInRange(CostsOf(d))
    requires IsExact(d.mix) && IsExact(d.infra) && IsExact(d.support)
    requires Conclude(c, telemetry, clock, d).Success?
    ensures var a := Conclude(c, telemetry, clock, d).value;
            DerivedFrom(c, telemetry, clock, a, rows, m, totals) && DerivedInRange(a)
  {
    rows := UnitEconomics(c, telemetry, CostsOf(d)).value;
    var measured := Measure(c, rows, telemetry, SignalsOf(d), StressMultiplier(d)).value;
    m, totals := measured.0, measured.1;
    SignalsInRange(d);
    MultiplierInRange(d);
    ThresholdsAreInRange(m);
    MinBlendedInRange(m.blended);
    PriorMeetsFloor(m.blended);
  }

  lemma WhatWasDerived(c: Conversions, telemetry: Object, clock: Clock)
    returns (rows: seq<UnitRow>, m: Metrics, totals: Totals)
    requires Derive(c, telemetry, clock).Success?
    ensures var a := Derive(c, telemetry, clock).value;
            DerivedFrom(c, telemetry, clock, a, rows, m, totals) && DerivedInRange(a)
  {
    var pricing := Field(telemetry, "pricing_reference").fields;
    var subscriptions := LooseIndex(c, ListField(telemetry, "tier_subscription_snapshot").value,
                                    "tier_subscription_snapshot", map[]).value;
    var llm := LooseIndex(c, ListField(telemetry, "tier_llm_usage").value, "tier_llm_usage", map[]).value;
    var d := DeriveTiers(c, pricing, subscriptions, llm, TRACKED_TIERS, NOTHING_DERIVED).value;
    DerivedTiers(c, pricing, subscriptions, llm, TRACKED_TIERS, NOTHING_DERIVED);
    forall tier | tier in TRACKED_TIERS ensures TierInRange(d, tier) {
    }
    DunningInRange(d.support);
    rows, m, totals := ConcludedFrom(c, telemetry, clock, d);
  }

  // ---------------------------------------------------- read by the packet program

  lemma EstimateFields(a: Assumptions)
    ensures var m := EstimatesJson(a);
            && Field(m, "thresholds") == ThresholdsJson(a.thresholds)
            && Field(m, "annual_mix_by_tier") == TierJson(a.costs.annualMix)
            && Field(m, INFRA_KEY) == TierJson(a.costs.infraPercent)
            && Field(m, SUPPORT_KEY) == TierJson(a.costs.supportPerSubscription)
  {
  }

  lemma ModelFields(a: Assumptions)
    ensures var m := ModelsJson(a);
            && Field(m, "support_cogs_per_dunning_event_usd") == JReal(a.costs.supportPerDunning)
            && Field(m, "conversion_signals") == SignalsJson(a.signals)
            && Field(m, "stress_scenario") == JObj(map["infra_cost_multiplier" := JReal(a.multiplier)])
            && Field(m, "close_history") == JList([CloseJson(a.prior)])
            && Field(m, "scenario_models") == SCENARIO_MODELS
            && GetOr(m, "self_hosted_tco_inputs", JObj(map[])) == SelfHostedJson(a.selfHosted)
  {
  }

  lemma ModelsLeaveEstimates(a: Assumptions)
    ensures var m := ModelsJson(a);
            "thresholds" !in m && "annual_mix_by_tier" !in m && INFRA_KEY !in m && SUPPORT_KEY !in m
  {
    assert INFRA_KEY[0] == 'i' && SUPPORT_KEY[13] == 'p';
  }

  lemma ToJsonFields(a: Assumptions)
    ensures var m := ToJson(a);
            && Field(m, "thresholds") == ThresholdsJson(a.thresholds)
            && Field(m, "annual_mix_by_tier") == TierJson(a.costs.annualMix)
            && Field(m, INFRA_KEY) == TierJson(a.costs.infraPercent)
            && Field(m, SUPPORT_KEY) == TierJson(a.costs.supportPerSubscription)
            && Field(m, "support_cogs_per_dunning_event_usd") == JReal(a.costs.supportPerDunning)
            && Field(m, "conversion_signals") == SignalsJson(a.signals)
            && Field(m, "stress_scenario") == JObj(map["infra_cost_multiplier" := JReal(a.multiplier)])
            && Field(m, "close_history") == JList([CloseJson(a.prior)])
            && Field(m, "scenario_models") == SCENARIO_MODELS
            && GetOr(m, "self_hosted_tco_inputs", JObj(map[])) == SelfHostedJson(a.selfHosted)
  {
    var m, n := EstimatesJson(a), ModelsJson(a);
    EstimateFields(a);
    ModelFields(a);
    ModelsLeaveEstimates(a);
    FieldOfSum(m, n, "thresholds");
    FieldOfSum(m, n, "annual_mix_by_tier");
    FieldOfSum(m, n, INFRA_KEY);
    FieldOfSum(m, n, SUPPORT_KEY);
    FieldOfSum(m, n, "support_cogs_per_dunning_event_usd");
    FieldOfSum(m, n, "conversion_signals");
    FieldOfSum(m, n, "stress_scenario");
    FieldOfSum(m, n, "close_history");
    FieldOfSum(m, n, "scenario_models");
    FieldOfSum(m, n, "self_hosted_tco_inputs");
  }

  lemma FieldOfSum(m: Object, n: Object, key: string)
    ensures Field(m + n, key) == if key in n then n[key] else Field(m, key)
    ensures key in n ==> key in m + n && (m + n)[key] == n[key]
  {
  }

  lemma SignalFields(signals: Signals)
    ensures var m := SignalsJson(signals).fields;
            Field(m, GROWTH_KEY) == JReal(signals.growthToPro)
            && Field(m, ENTERPRISE_KEY) == JReal(signals.proToEnterprise)
  {
    assert GROWTH_KEY[0] == 'g' && ENTERPRISE_KEY[0] == 'p';
  }

  lemma PriorParsesBack(c: Conversions, close: Close)
    requires Lawful(c) && Strip(close.month) == close.month != "" && 0.0 <= close.blended <= 100.0
    ensures CloseHistory(c, JList([CloseJson(close)])) == Success([close])
  {
    var m := CloseJson(close).fields;
    assert Field(m, "month") == JStr(close.month) && Field(m, "blended_gross_margin_percent") == JReal(close.blended);
    assert ParseClose(c, CloseJson(close)) == Success(close);
    assert [CloseJson(close)][1..] == [] && [] + [close] == [close];
    assert ParseCloses(c, [], {} + {close.month}, [close]) == Success([close]);
  }

  lemma ParsedTogether(c: Conversions, a: Object, p: Parsed)
    requires TierFloatMap(c, Field(a, "annual_mix_by_tier"), "annual_mix_by_tier", Some(0.0), Some(1.0)) ==
             Success(p.costs.annualMix)
    requires TierFloatMap(c, Field(a, INFRA_KEY), INFRA_KEY, Some(0.0), None) == Success(p.costs.infraPercent)
    requires TierFloatMap(c, Field(a, SUPPORT_KEY), SUPPORT_KEY, Some(0.0), None) ==
             Success(p.costs.supportPerSubscription)
    requires ParseFloat(c, Field(a, "support_cogs_per_dunning_event_usd"), "support_cogs_per_dunning_event_usd",
                        Some(0.0), None)
             == Success(p.costs.supportPerDunning)
    requires Field(a, "conversion_signals").JObj? && Field(a, "stress_scenario").JObj?
    requires ParseFloat(c, Field(Field(a, "conversion_signals").fields, GROWTH_KEY), GROWTH_KEY, None, None) ==
             Success(p.signals.growthToPro)
    requires ParseFloat(c, Field(Field(a, "conversion_signals").fields, ENTERPRISE_KEY), ENTERPRISE_KEY, None, None)
             == Success(p.signals.proToEnterprise)
    requires ParseFloat(c, Field(Field(a, "stress_scenario").fields, "infra_cost_multiplier"), "infra_cost_multiplier",
                        Some(1.0), None)
             == Success(p.multiplier)
    requires ParseThresholds(c, Field(a, "thresholds")) == Success(p.thresholds)
    requires CloseHistory(c, Field(a, "close_history")) == Success(p.history)
    ensures ParseAssumptions(c, a) == Success(p)
  {
  }

  lemma MultiplierParsesBack(c: Conversions, multiplier: real)
    requires Lawful(c) && multiplier >= 1.0
    ensures ParseFloat(c, Field(map["infra_cost_multiplier" := JReal(multiplier)], "infra_cost_multiplier"),
                       "infra_cost_multiplier", Some(1.0), None) == Success(multiplier)
  {
  }

  /** The derived assumptions never fail the packet's own parsing, and come through unchanged. */
  lemma DerivedParseBack(c: Conversions, a: Assumptions)
    requires Lawful(c) && DerivedInRange(a) && Strip(a.prior.month) == a.prior.month != ""
    ensures ParseAssumptions(c, ToJson(a)) == Success(Parsed(a.costs, a.signals, a.multiplier, a.thresholds, [a.prior]))
  {
    ToJsonFields(a);
    TierMapParsesBack(c, a.costs.annualMix, "annual_mix_by_tier", Some(0.0), Some(1.0));
    TierMapParsesBack(c, a.costs.infraPercent, INFRA_KEY, Some(0.0), None);
    TierMapParsesBack(c, a.costs.supportPerSubscription, SUPPORT_KEY, Some(0.0), None);
    FloatParsesBack(c, a.costs.supportPerDunning, "support_cogs_per_dunning_event_usd", Some(0.0), None);
    SignalFields(a.signals);
    FloatParsesBack(c, a.signals.growthToPro, GROWTH_KEY, None, None);
    FloatParsesBack(c, a.signals.proToEnterprise, ENTERPRISE_KEY, None, None);
    MultiplierParsesBack(c, a.multiplier);
    ThresholdsParseBack(c, a.thresholds);
    PriorParsesBack(c, a.prior);
    ParsedTogether(c, ToJson(a), Parsed(a.costs, a.signals, a.multiplier, a.thresholds, [a.prior]));
  }

  // ----------------------------------------------------- published by the packet program

  lemma {:induction false} CostsAddUp(c: Conversions, costs: Object, keys: seq<string>, total: real)
    requires forall i | 0 <= i < |keys| ::
               ParseFloat(c, GetOr(costs, keys[i], JReal(0.0)), keys[i], Some(0.0), None).Success?
    ensures SelfHostedTotal(c, costs, keys, total).Success?
    decreases keys
  {
    if keys != [] {
      assert ParseFloat(c, GetOr(costs, keys[0], JReal(0.0)), keys[0], Some(0.0), None).Success?;
      assert forall i | 0 <= i < |keys| - 1 :: keys[1..][i] == keys[i + 1];
      CostsAddUp(c, costs, keys[1..],
                 total + ParseFloat(c, GetOr(costs, keys[0], JReal(0.0)), keys[0], Some(0.0), None).value);
    }
  }

  lemma CostNonNegative(value: real, least: int)
    requires 0 <= least
    ensures 0.0 <= Round(Max(least as real, value), Two)
  {
    WholeOnGrid(0, Two);
    RoundAtLeast(Max(least as real, value), 0.0, Two);
  }

  lemma SelfHostedParses(c: Conversions, effective: real)
    requires Lawful(c)
    ensures SelfHostedTotal(c, SelfHostedJson(SelfHosted(effective)).fields, SELF_HOSTED_KEYS, 0.0).Success?
  {
    var costs := SelfHosted(effective);
    var arr := effective * 12.0;
    CostNonNegative(arr * 0.28, 220000);
    CostNonNegative(arr * 0.055, 70000);
    CostNonNegative(arr * 0.035, 45000);
    CostNonNegative(arr * 0.045, 55000);
    CostNonNegative(arr * 0.018, 22000);
    CostsParse(c, costs);
    CostsAddUp(c, SelfHostedJson(costs).fields, SELF_HOSTED_KEYS, 0.0);
  }

  lemma CostsParse(c: Conversions, costs: seq<real>)
    requires Lawful(c) && |costs| == |SELF_HOSTED_KEYS| && forall i | 0 <= i < |costs| :: 0.0 <= costs[i]
    ensures forall i | 0 <= i < |SELF_HOSTED_KEYS| ::
              ParseFloat(c, GetOr(SelfHostedJson(costs).fields, SELF_HOSTED_KEYS[i], JReal(0.0)), SELF_HOSTED_KEYS[i],
                         Some(0.0), None).Success?
  {
    var m := SelfHostedJson(costs).fields;
    forall i | 0 <= i < |SELF_HOSTED_KEYS|
      ensures ParseFloat(c, GetOr(m, SELF_HOSTED_KEYS[i], JReal(0.0)), SELF_HOSTED_KEYS[i], Some(0.0), None).Success?
    {
      var k :| 0 <= k < |costs| && m[SELF_HOSTED_KEYS[i]] == JReal(costs[k]);
      FloatParsesBack(c, costs[k], SELF_HOSTED_KEYS[i], Some(0.0), None);
    }
  }

  lemma MultipliersParse(c: Conversions, s: real, g: real, p: real, e: real)
    requires Lawful(c) && 0.0 <= s && 0.0 <= g && 0.0 <= p && 0.0 <= e
    ensures var m := TierMultipliers(s, g, p, e);
            && Multiplier(c, m, "starter") == Success(s) && Multiplier(c, m, "growth") == Success(g)
            && Multiplier(c, m, "pro") == Success(p) && Multiplier(c, m, "enterprise") == Success(e)
  {
    var m := TierMultipliers(s, g, p, e);
    assert Field(m, "starter") == JReal(s) && Field(m, "growth") == JReal(g);
    assert Field(m, "pro") == JReal(p) && Field(m, "enterprise") == JReal(e);
  }

  predicate MultipliersOk(c: Conversions, m: Object) {
    forall tier | tier in TRACKED_TIERS :: Multiplier(c, m, tier).Success?
  }

  lemma EveryTier(tier: string)
    requires tier in TRACKED_TIERS
    ensures tier == "starter" || tier == "growth" || tier == "pro" || tier == "enterprise"
  {
  }

  lemma DerivedMultipliers(c: Conversions)
    requires Lawful(c)
    ensures AllOnes(c, ONES) && MultipliersOk(c, ONES)
    ensures MultipliersOk(c, TierMultipliers(1.0, 0.99, 0.96, 1.02))
    ensures MultipliersOk(c, TierMultipliers(1.0, 1.0, 1.15, 1.0))
    ensures MultipliersOk(c, TierMultipliers(1.0, 1.01, 1.03, 1.08))
  {
    MultipliersParse(c, 1.0, 1.0, 1.0, 1.0);
    MultipliersParse(c, 1.0, 0.99, 0.96, 1.02);
    MultipliersParse(c, 1.0, 1.0, 1.15, 1.0);
    MultipliersParse(c, 1.0, 1.01, 1.03, 1.08);
    forall tier | tier in TRACKED_TIERS
      ensures tier == "starter" || tier == "growth" || tier == "pro" || tier == "enterprise"
    {
      EveryTier(tier);
    }
  }

  lemma ScenarioSucceeds(c: Conversions, b: Baseline, name: string, sub: Object, price: Object)
    requires BaselineOk(b) && Trimmed(name) && name != "" && MultipliersOk(c, sub) && MultipliersOk(c, price)
    ensures OneScenario(c, b, ScenarioJson(name, sub, price)).Success?
  {
    StripOfTrimmed(name);
    ScenarioMonotone(c, b, name, sub, price, sub, price);
  }

  lemma ScenarioNames()
    ensures Trimmed("baseline") && Trimmed("enterprise_expansion_signal")
            && Trimmed("pro_price_plus_15_growth_retention")
  {
  }

  lemma BaselineSucceeds(c: Conversions, b: Baseline)
    requires Lawful(c) && BaselineOk(b)
    ensures OneScenario(c, b, BASELINE).Success?
  {
    ScenarioNames();
    DerivedMultipliers(c);
    ScenarioSucceeds(c, b, "baseline", ONES, ONES);
  }

  lemma RetentionSucceeds(c: Conversions, b: Baseline)
    requires Lawful(c) && BaselineOk(b)
    ensures OneScenario(c, b, RETENTION).Success?
  {
    ScenarioNames();
    DerivedMultipliers(c);
    ScenarioSucceeds(c, b, "pro_price_plus_15_growth_retention",
                     TierMultipliers(1.0, 0.99, 0.96, 1.02), TierMultipliers(1.0, 1.0, 1.15, 1.0));
  }

  lemma ExpansionSucceeds(c: Conversions, b: Baseline)
    requires Lawful(c) && BaselineOk(b)
    ensures OneScenario(c, b, EXPANSION).Success?
  {
    ScenarioNames();
    DerivedMultipliers(c);
    ScenarioSucceeds(c, b, "enterprise_expansion_signal", TierMultipliers(1.0, 1.01, 1.03, 1.08), ONES);
  }

  lemma ModelsHoldScenarios(c: Conversions, b: Baseline)
    ensures ScenarioRows(c, b, SCENARIO_MODELS) == Scenarios(c, b, SCENARIOS, [])
  {
  }

  /** The three derived scenarios are always computed, the all-ones scenario first. */
  lemma DerivedScenarios(c: Conversions, b: Baseline)
    requires Lawful(c) && BaselineOk(b)
    ensures var r := ScenarioRows(c, b, SCENARIO_MODELS);
            r.Success? && |r.value| == 3 && OneScenario(c, b, BASELINE) == Success(r.value[0])
  {
    BaselineSucceeds(c, b);
    RetentionSucceeds(c, b);
    ExpansionSucceeds(c, b);
    ModelsHoldScenarios(c, b);
    ThreeScenarios(c, b, BASELINE, RETENTION, EXPANSION);
  }

  lemma ThreeScenarios(c: Conversions, b: Baseline, i: Json, j: Json, k: Json)
    requires OneScenario(c, b, i).Success? && OneScenario(c, b, j).Success? && OneScenario(c, b, k).Success?
    ensures var r := Scenarios(c, b, [i, j, k], []);
            r.Success? && |r.value| == 3 && OneScenario(c, b, i) == Success(r.value[0])
  {
    var x, y, z := OneScenario(c, b, i).value, OneScenario(c, b, j).value, OneScenario(c, b, k).value;
    assert [i, j, k][1..] == [j, k] && [j, k][1..] == [k] && [k][1..] == [];
    assert Scenarios(c, b, [], [] + [x] + [y] + [z]).Success?;
    assert Scenarios(c, b, [k], [] + [x] + [y]) == Scenarios(c, b, [], [] + [x] + [y] + [z]);
    assert Scenarios(c, b, [j, k], [] + [x]) == Scenarios(c, b, [k], [] + [x] + [y]);
  }

  /** The window names the packet needs; the derivation does without them. */
  predicate WindowNamed(c: Conversions, telemetry: Object) {
    var window := Field(telemetry, "window");
    && window.JObj?
    && ParseNonEmpty(c, Field(window.fields, "label"), "window.label").Success?
    && ParseNonEmpty(c, Field(window.fields, "start"), "window.start").Success?
    && ParseNonEmpty(c, Field(window.fields, "end"), "window.end").Success?
  }

  lemma DerivedMetrics(c: Conversions, telemetry: Object, a: Assumptions, rows: seq<UnitRow>, m: Metrics,
                       totals: Totals)
    requires DerivedInRange(a) && UnitEconomics(c, telemetry, a.costs) == Success(rows)
    requires Measure(c, rows, telemetry, a.signals, a.multiplier) == Success((m, totals))
    ensures Published(m) && 0.0 <= m.p95 && -3.0 <= m.growthToPro <= 3.0 && -3.0 <= m.proToEnterprise <= 3.0
  {
    var llm, exact := MeasuredFrom(c, rows, telemetry, a.signals, a.multiplier);
    EconomicsRows(c, telemetry, a.costs);
    RoundGrid(0.0, Two);
    AccumulatedOk(c, llm, rows, ZERO_TOTALS);
    MetricsPublished(exact, a.signals, a.multiplier);
    MarginsKeepBounds(exact, a.signals, a.multiplier);
    SignalStays(a.signals.growthToPro);
    SignalStays(a.signals.proToEnterprise);
  }

  lemma SignalStays(signal: real)
    requires -3.0 <= signal <= 3.0
    ensures -3.0 <= Round(signal, Four) <= 3.0
  {
    RoundAtLeast(signal, -3.0, Four);
    RoundAtMost(signal, 3.0, Four);
  }

  predicate GatesAtBounds(gates: Gates, m: Metrics) {
    && (gates.margin <==> m.blended >= 60.0)
    && (gates.llm <==> m.p95 <= 35.0)
    && (gates.discount <==> m.discount <= 35.0)
    && gates.expansion
    && (gates.stress <==> m.stress >= 45.0)
  }

  /** What a packet made from derived assumptions says. */
  predicate AtFloors(packet: Packet) {
    && GatesAtBounds(packet.gates, packet.metrics)
    && (packet.passed <==> packet.metrics.blended >= 60.0 && packet.metrics.p95 <= 35.0
                           && packet.metrics.discount <= 35.0 && packet.metrics.stress >= 45.0)
  }

  predicate FirstReproduces(scenarios: seq<ScenarioRow>, totals: Totals) {
    |scenarios| == 3 && scenarios[0].name == "baseline"
    && -0.045 <= scenarios[0].effective - totals.effective <= 0.045
  }

  /** For any telemetry the derivation accepts, the packet built from the derived assumptions fails
      only for want of a window name. Otherwise it measures what the derivation measured, its
      thresholds are those derived from its own metrics, its gates pass exactly at the absolute
      floors and ceilings, and its first scenario reproduces its effective revenue. */
  lemma SelfDerivedGates(c: Conversions, telemetry: Object, clock: Clock)
    requires Lawful(c) && Strip(clock.previousMonth) == clock.previousMonth != ""
    requires Derive(c, telemetry, clock).Success?
    ensures var r := FinanceOutputs(c, telemetry, ToJson(Derive(c, telemetry, clock).value));
            && (r.Success? <==> WindowNamed(c, telemetry))
            && (r.Success? ==>
                  && r.value.thresholds == DeriveThresholds(r.value.metrics)
                  && AtFloors(r.value)
                  && FirstReproduces(r.value.scenarios, r.value.totals))
  {
    var a := Derive(c, telemetry, clock).value;
    var rows, m, totals := WhatWasDerived(c, telemetry, clock);
    DerivedParseBack(c, a);
    DerivedMetrics(c, telemetry, a, rows, m, totals);
    PublishDerived(c, telemetry, a, rows, m, totals);
  }

  lemma PublishDerived(c: Conversions, telemetry: Object, a: Assumptions, rows: seq<UnitRow>, m: Metrics,
                       totals: Totals)
    requires Lawful(c) && DerivedInRange(a) && UnitEconomics(c, telemetry, a.costs) == Success(rows)
    requires Measure(c, rows, telemetry, a.signals, a.multiplier) == Success((m, totals))
    requires a.thresholds == DeriveThresholds(m) && a.prior.blended == PriorBlended(m.blended, a.thresholds.minBlended)
    requires a.selfHosted == SelfHosted(totals.effective)
    requires Published(m) && 0.0 <= m.p95 && -3.0 <= m.growthToPro <= 3.0 && -3.0 <= m.proToEnterprise <= 3.0
    ensures var p := Parsed(a.costs, a.signals, a.multiplier, a.thresholds, [a.prior]);
            var r := Publish(c, telemetry, ToJson(a), p, rows, m, totals);
            && (r.Success? <==> WindowNamed(c, telemetry))
            && (r.Success? ==>
                  && r.value.metrics == m && r.value.totals == totals && r.value.thresholds == a.thresholds
                  && AtFloors(r.value)
                  && FirstReproduces(r.value.scenarios, totals))
  {
    var p := Parsed(a.costs, a.signals, a.multiplier, a.thresholds, [a.prior]);
    PublishNeedsWindow(c, telemetry, ToJson(a), p, rows, m, totals);
    if WindowNamed(c, telemetry) {
      var current := ParseNonEmpty(c, Field(Field(telemetry, "window").fields, "label"), "window.label").value;
      DerivedGates(a, m, current);
      FactorsKnown(c, telemetry, a.costs, rows);
      DerivedScenarioRows(c, telemetry, a, rows, m, totals);
      SelfHostedParses(c, totals.effective);
      ToJsonFields(a);
      PublishWhen(c, telemetry, ToJson(a), p, rows, m, totals);
    }
  }

  lemma DerivedGates(a: Assumptions, m: Metrics, current: string)
    requires Published(m) && 0.0 <= m.p95 && -3.0 <= m.growthToPro <= 3.0 && -3.0 <= m.proToEnterprise <= 3.0
    requires a.thresholds == DeriveThresholds(m) && a.prior.blended == PriorBlended(m.blended, a.thresholds.minBlended)
    ensures var r := GateResults(m, a.thresholds, [a.prior] + [Close(current, m.blended)]);
            r.Success? && GatesAtBounds(r.value, m)
  {
    GatesAtFloors(m, a.prior.month, current);
    assert [a.prior] + [Close(current, m.blended)] == [a.prior, Close(current, m.blended)];
  }

  lemma DerivedScenarioRows(c: Conversions, telemetry: Object, a: Assumptions, rows: seq<UnitRow>, m: Metrics,
                            totals: Totals)
    requires Lawful(c) && DerivedInRange(a) && UnitEconomics(c, telemetry, a.costs) == Success(rows)
    requires Measure(c, rows, telemetry, a.signals, a.multiplier) == Success((m, totals))
    ensures var r := ScenarioRows(c, BaselineOf(c, telemetry, a.costs, rows), SCENARIO_MODELS);
            r.Success? && FirstReproduces(r.value, totals)
  {
    BaselineFits(c, telemetry, a.costs, rows);
    DerivedScenarios(c, BaselineOf(c, telemetry, a.costs, rows));
    FirstScenarioClose(c, telemetry, a, rows, m, totals);
  }

  lemma FirstScenarioClose(c: Conversions, telemetry: Object, a: Assumptions, rows: seq<UnitRow>, m: Metrics,
                           totals: Totals)
    requires Lawful(c) && DerivedInRange(a) && UnitEconomics(c, telemetry, a.costs) == Success(rows)
    requires Measure(c, rows, telemetry, a.signals, a.multiplier) == Success((m, totals))
    ensures var scenario := OneScenario(c, BaselineOf(c, telemetry, a.costs, rows), BASELINE);
            scenario.Success? && scenario.value.name == "baseline"
            && -0.045 <= scenario.value.effective - totals.effective <= 0.045
  {
    var llm, exact := MeasuredFrom(c, rows, telemetry, a.signals, a.multiplier);
    var b := BaselineOf(c, telemetry, a.costs, rows);
    BaselineFits(c, telemetry, a.costs, rows);
    DerivedMultipliers(c);
    ScenarioNames();
    StripOfTrimmed("baseline");
    OnesReproduceTotals(c, llm, b, rows, "baseline", ONES, ONES);
    NamedBaseline(c, b);
  }

  lemma NamedBaseline(c: Conversions, b: Baseline)
    requires Strip("baseline") == "baseline" && OneScenario(c, b, BASELINE).Success?
    ensures OneScenario(c, b, BASELINE).value.name == "baseline"
  {
    ScenarioFields("baseline", ONES, ONES);
  }

  lemma PublishNeedsWindow(c: Conversions, telemetry: Object, j: Object, p: Parsed, rows: seq<UnitRow>, m: Metrics,
                           totals: Totals)
    requires p.thresholds.requiredCloses >= 1
    ensures Publish(c, telemetry, j, p, rows, m, totals).Success? ==> WindowNamed(c, telemetry)
  {
  }

  lemma PublishWhen(c: Conversions, telemetry: Object, j: Object, p: Parsed, rows: seq<UnitRow>, m: Metrics,
                    totals: Totals)
    requires p.thresholds.requiredCloses >= 1 && WindowNamed(c, telemetry)
             && Field(telemetry, "pricing_reference").JObj?
    requires var current := ParseNonEmpty(c, Field(Field(telemetry, "window").fields, "label"), "window.label").value;
             GateResults(m, p.thresholds, p.history + [Close(current, m.blended)]).Success?
    requires PricingFactors(c, Field(telemetry, "pricing_reference").fields, TRACKED_TIERS).Success?
    requires ScenarioRows(c, BaselineOf(c, telemetry, p.costs, rows), Field(j, "scenario_models")).Success?
    requires GetOr(j, "self_hosted_tco_inputs", JObj(map[])).JObj?
    requires SelfHostedTotal(c, GetOr(j, "self_hosted_tco_inputs", JObj(map[])).fields, SELF_HOSTED_KEYS, 0.0).Success?
    ensures var r := Publish(c, telemetry, j, p, rows, m, totals);
            var current := ParseNonEmpty(c, Field(Field(telemetry, "window").fields, "label"), "window.label").value;
            && r.Success? && r.value.metrics == m && r.value.totals == totals && r.value.thresholds == p.thresholds
            && GateResults(m, p.thresholds, p.history + [Close(current, m.blended)]) == Success(r.value.gates)
            && r.value.passed == AllPass(r.value.gates)
            && ScenarioRows(c, BaselineOf(c, telemetry, p.costs, rows), Field(j, "scenario_models")) ==
               Success(r.value.scenarios)
  {
  }
}
