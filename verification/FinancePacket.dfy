/** The packet program on assumptions of its own (`build_finance_outputs`), and on the assumptions
    the other program derives from the same telemetry. */
module FinancePacket {
  import opened FinanceAssumptions
  import opened FinanceCommon
  import opened FinanceEngine
  import opened FinanceScenarios
  import opened JsonValue
  import opened Rounding
  import opened Text

  datatype Parsed = Parsed(
    costs: CostModel, signals: Signals, multiplier: real, thresholds: Thresholds, history: seq<Close>)

  function ParseCosts(c: Conversions, a: Object): (r: Result<CostModel>)
    ensures r.Success? ==> CostsInRange(r.value)
  {
    var mix :- TierFloatMap(c, Field(a, "annual_mix_by_tier"), "annual_mix_by_tier", Some(0.0), Some(1.0));
    var infra :- TierFloatMap(c, Field(a, INFRA_KEY), INFRA_KEY, Some(0.0), None);
    var support :- TierFloatMap(c, Field(a, SUPPORT_KEY), SUPPORT_KEY, Some(0.0), None);
    var dunning :- ParseFloat(c, Field(a, "support_cogs_per_dunning_event_usd"), "support_cogs_per_dunning_event_usd",
                              Some(0.0), None);
    ParsedTiersInRange(c, a, mix, infra, support);
    Success(CostModel(mix, infra, support, dunning))
  }

  /** The conversion signals and the stress multiplier. */
  function ParseSignals(c: Conversions, a: Object): (r: Result<(Signals, real)>)
    ensures r.Success? ==> r.value.1 >= 1.0
  {
    var signals := Field(a, "conversion_signals");
    if !signals.JObj? then Failure("conversion_signals")
    else
      var growth :- ParseFloat(c, Field(signals.fields, GROWTH_KEY), GROWTH_KEY, None, None);
      var enterprise :- ParseFloat(c, Field(signals.fields, ENTERPRISE_KEY), ENTERPRISE_KEY, None, None);
      var stress := Field(a, "stress_scenario");
      if !stress.JObj? then Failure("stress_scenario")
      else
        var multiplier :- ParseFloat(c, Field(stress.fields, "infra_cost_multiplier"), "infra_cost_multiplier",
                                     Some(1.0), None);
        Success((Signals(growth, enterprise), multiplier))
  }

  /** The parsing half of `build_finance_outputs`. */
  function ParseAssumptions(c: Conversions, a: Object): (r: Result<Parsed>)
    ensures r.Success? ==>
              CostsInRange(r.value.costs) && r.value.multiplier >= 1.0 && r.value.thresholds.requiredCloses >= 1
  {
    var costs :- ParseCosts(c, a);
    var signals :- ParseSignals(c, a);
    var thresholds :- ParseThresholds(c, Field(a, "thresholds"));
    var history :- CloseHistory(c, Field(a, "close_history"));
    Success(Parsed(costs, signals.0, signals.1, thresholds, history))
  }

  lemma ParsedTiersInRange(c: Conversions, a: Object, mix: map<string, real>, infra: map<string, real>,
                           support: map<string, real>)
    requires TierFloatMap(c, Field(a, "annual_mix_by_tier"), "annual_mix_by_tier", Some(0.0), Some(1.0)) == Success(mix)
    requires TierFloatMap(c, Field(a, INFRA_KEY), INFRA_KEY, Some(0.0), None) == Success(infra)
    requires TierFloatMap(c, Field(a, SUPPORT_KEY), SUPPORT_KEY, Some(0.0), None) == Success(support)
    ensures forall tier | tier in TRACKED_TIERS ::
              && tier in mix && tier in infra && tier in support
              && 0.0 <= mix[tier] <= 1.0 && 0.0 <= infra[tier] && 0.0 <= support[tier]
  {
    ParsedTiers(c, Field(a, "annual_mix_by_tier").fields, "annual_mix_by_tier", Some(0.0), Some(1.0), TRACKED_TIERS,
                map[]);
    ParsedTiers(c, Field(a, INFRA_KEY).fields, INFRA_KEY, Some(0.0), None, TRACKED_TIERS, map[]);
    ParsedTiers(c, Field(a, SUPPORT_KEY).fields, SUPPORT_KEY, Some(0.0), None, TRACKED_TIERS, map[]);
  }

  function PricingFactors(c: Conversions, pricing: Object, tiers: seq<string>): Result<map<string, real>> {
    if tiers == [] then Success(map[])
    else
      var price := Field(pricing, tiers[0]);
      if !price.JObj? then Failure("pricing_reference")
      else
        var factor :- ParseFloat(c, Field(price.fields, "annual_monthly_factor"), "annual_monthly_factor", Some(0.0),
                                 Some(1.0));
        var rest :- PricingFactors(c, pricing, tiers[1..]);
        Success(rest[tiers[0] := factor])
  }

  function RowsByTier(rows: seq<UnitRow>): map<string, UnitRow> {
    if rows == [] then map[] else RowsByTier(rows[..|rows| - 1])[rows[|rows| - 1].tier := rows[|rows| - 1]]
  }

  function SelfHostedTotal(c: Conversions, costs: Object, keys: seq<string>, total: real): Result<real>
    decreases keys
  {
    if keys == [] then Success(total)
    else
      var cost :- ParseFloat(c, GetOr(costs, keys[0], JReal(0.0)), keys[0], Some(0.0), None);
      SelfHostedTotal(c, costs, keys[1..], total + cost)
  }

  datatype Packet = Packet(
    metrics: Metrics, totals: Totals, thresholds: Thresholds, history: seq<Close>, rows: seq<UnitRow>,
    gates: Gates, passed: bool, scenarios: seq<ScenarioRow>, hosting: Hosting)

  /** A year of revenue, the costs of hosting it oneself, and the difference. */
  datatype Hosting = Hosting(arr: real, own: real, delta: real)

  function HostingOf(c: Conversions, a: Object, effective: real): Result<Hosting> {
    var tco := GetOr(a, "self_hosted_tco_inputs", JObj(map[]));
    if !tco.JObj? then Failure("self_hosted_tco_inputs")
    else
      var own :- SelfHostedTotal(c, tco.fields, SELF_HOSTED_KEYS, 0.0);
      var arr := effective * 12.0;
      Success(Hosting(Round(arr, Two), Round(own, Two), Round(arr - own, Two)))
  }

  /** What is published after the metrics are known. */
  function Publish(c: Conversions, telemetry: Object, a: Object, p: Parsed, rows: seq<UnitRow>, metrics: Metrics,
                   totals: Totals)
    : Result<Packet>
    requires p.thresholds.requiredCloses >= 1
  {
    var window := Field(telemetry, "window");
    if !window.JObj? then Failure("window")
    else
      var current :- ParseNonEmpty(c, Field(window.fields, "label"), "window.label");
      var history := p.history + [Close(current, metrics.blended)];
      var gates :- GateResults(metrics, p.thresholds, history);
      var start :- ParseNonEmpty(c, Field(window.fields, "start"), "window.start");
      var end :- ParseNonEmpty(c, Field(window.fields, "end"), "window.end");
      var pricing := Field(telemetry, "pricing_reference");
      if !pricing.JObj? then Failure("pricing_reference")
      else
        var factors :- PricingFactors(c, pricing.fields, TRACKED_TIERS);
        var scenarios :- ScenarioRows(c, Baseline(RowsByTier(rows), p.costs.annualMix, factors),
                                      Field(a, "scenario_models"));
        var hosting :- HostingOf(c, a, totals.effective);
        Success(Packet(metrics, totals, p.thresholds, history, rows, gates, AllPass(gates), scenarios, hosting))
  }

  /** `build_finance_outputs` */
  function FinanceOutputs(c: Conversions, telemetry: Object, a: Object): Result<Packet> {
    var p :- ParseAssumptions(c, a);
    var rows :- UnitEconomics(c, telemetry, p.costs);
    var measured :- Measure(c, rows, telemetry, p.signals, p.multiplier);
    Publish(c, telemetry, a, p, rows, measured.0, measured.1)
  }

  method BuildFinanceOutputs(c: Conversions, telemetry: Object, a: Object) returns (r: Result<Packet>)
    ensures r == FinanceOutputs(c, telemetry, a)
  {
    var p :- ParseAssumptions(c, a);
    var built := BuildTierUnitEconomics(c, telemetry, p.costs);
    var rows :- built;
    var computed := ComputeMetrics(c, rows, telemetry, p.signals, p.multiplier);
    var measured :- computed;
    return Publish(c, telemetry, a, p, rows, measured.0, measured.1);
  }

  // ----------------------------------------------------- the scenario baseline

  ghost predicate DistinctTiers(rows: seq<UnitRow>) {
    forall i, j | 0 <= i < j < |rows| :: rows[i].tier != rows[j].tier
  }

  lemma {:induction false} RowsByTierFinds(rows: seq<UnitRow>)
    requires DistinctTiers(rows)
    ensures forall i | 0 <= i < |rows| :: rows[i].tier in RowsByTier(rows) && RowsByTier(rows)[rows[i].tier] == rows[i]
  {
    if rows != [] {
      var front := rows[..|rows| - 1];
      assert forall i | 0 <= i < |front| :: front[i] == rows[i];
      RowsByTierFinds(front);
    }
  }

  predicate HasFactor(c: Conversions, pricing: Object, tier: string, factor: real) {
    && Field(pricing, tier).JObj?
    && ParseFloat(c, Field(Field(pricing, tier).fields, "annual_monthly_factor"), "annual_monthly_factor", Some(0.0),
                  Some(1.0))
       == Success(factor)
  }

  lemma {:induction false} FactorsParsed(c: Conversions, pricing: Object, tiers: seq<string>, factorOf: string -> real)
    requires forall i | 0 <= i < |tiers| :: HasFactor(c, pricing, tiers[i], factorOf(tiers[i]))
    ensures var r := PricingFactors(c, pricing, tiers);
            r.Success? && forall i | 0 <= i < |tiers| :: tiers[i] in r.value && r.value[tiers[i]] == factorOf(tiers[i])
  {
    if tiers != [] {
      assert HasFactor(c, pricing, tiers[0], factorOf(tiers[0]));
      assert forall i | 0 <= i < |tiers| - 1 :: tiers[1..][i] == tiers[i + 1];
      FactorsParsed(c, pricing, tiers[1..], factorOf);
      assert forall i | 0 < i < |tiers| :: tiers[i] == tiers[1..][i - 1];
    }
  }

  /** The price factor of a tier, when the telemetry has one. */
  function FactorOf(c: Conversions, telemetry: Object): string -> real {
    tier =>
      if TelemetryInputs(c, telemetry, tier).Success? then TelemetryInputs(c, telemetry, tier).value.factor else 0.0
  }

  lemma FactorKnown(c: Conversions, telemetry: Object, tier: string)
    requires Field(telemetry, "pricing_reference").JObj? && TelemetryInputs(c, telemetry, tier).Success?
    ensures HasFactor(c, Field(telemetry, "pricing_reference").fields, tier, FactorOf(c, telemetry)(tier))
  {
  }

  lemma EffectiveIs(inputs: TierInputs, mix: real, factor: real)
    requires factor == AnnualFactor(mix, inputs.factor)
    ensures EffectiveMrr(inputs, mix) == GrossMrr(inputs) * factor
  {
  }

  lemma InputsMatch(inputs: TierInputs, costs: CostModel, tier: string, factor: real)
    requires CostsInRange(costs) && InputsInRange(inputs) && tier in TRACKED_TIERS
    requires factor == AnnualFactor(costs.annualMix[tier], inputs.factor)
    ensures var row := UnitRowOf(tier, inputs, costs);
            -0.01 <= ScenarioEffective(row, factor, 1.0, 1.0) - row.effective <= 0.01
  {
    FactorInRange(costs.annualMix[tier], inputs.factor);
    EffectiveIs(inputs, costs.annualMix[tier], factor);
    OnesClose(tier, inputs, costs, factor);
  }

  lemma TierMatches(c: Conversions, telemetry: Object, costs: CostModel, tier: string, row: UnitRow, b: Baseline)
    requires CostsInRange(costs) && IsTierRow(c, telemetry, costs, tier, row) && tier in TRACKED_TIERS
    requires tier in b.rows && b.rows[tier] == row && tier in b.factors
             && b.factors[tier] == FactorOf(c, telemetry)(tier)
    requires b.mix == costs.annualMix
    ensures RowMatches(b, tier, row) && 0.0 <= b.factors[tier] <= 1.0
  {
    InputsMatch(TelemetryInputs(c, telemetry, tier).value, costs, tier, TierFactor(b, tier));
  }

  function BaselineOf(c: Conversions, telemetry: Object, costs: CostModel, rows: seq<UnitRow>): Baseline
    requires Field(telemetry, "pricing_reference").JObj?
  {
    var factors := PricingFactors(c, Field(telemetry, "pricing_reference").fields, TRACKED_TIERS);
    Baseline(RowsByTier(rows), costs.annualMix, if factors.Success? then factors.value else map[])
  }

  /** The price factors always parse when the rows could be computed. */
  lemma FactorsKnown(c: Conversions, telemetry: Object, costs: CostModel, rows: seq<UnitRow>)
    requires CostsInRange(costs) && UnitEconomics(c, telemetry, costs) == Success(rows)
    ensures var r := PricingFactors(c, Field(telemetry, "pricing_reference").fields, TRACKED_TIERS);
            r.Success? && forall i | 0 <= i < |TRACKED_TIERS| ::
              TRACKED_TIERS[i] in r.value && r.value[TRACKED_TIERS[i]] == FactorOf(c, telemetry)(TRACKED_TIERS[i])
  {
    EconomicsRows(c, telemetry, costs);
    forall i | 0 <= i < |TRACKED_TIERS|
      ensures HasFactor(c, Field(telemetry, "pricing_reference").fields, TRACKED_TIERS[i],
                        FactorOf(c, telemetry)(TRACKED_TIERS[i]))
    {
      assert IsTierRow(c, telemetry, costs, TRACKED_TIERS[i], rows[i]);
      FactorKnown(c, telemetry, TRACKED_TIERS[i]);
    }
    FactorsParsed(c, Field(telemetry, "pricing_reference").fields, TRACKED_TIERS, FactorOf(c, telemetry));
  }

  lemma TiersDistinct()
    ensures forall i, j | 0 <= i < j < |TRACKED_TIERS| :: TRACKED_TIERS[i] != TRACKED_TIERS[j]
  {
  }

  lemma RowsFound(rows: seq<UnitRow>)
    requires |rows| == |TRACKED_TIERS| && forall i | 0 <= i < |rows| :: rows[i].tier == TRACKED_TIERS[i]
    ensures forall i | 0 <= i < |rows| ::
              TRACKED_TIERS[i] in RowsByTier(rows) && RowsByTier(rows)[TRACKED_TIERS[i]] == rows[i]
  {
    TiersDistinct();
    RowsByTierFinds(rows);
  }

  /** The baseline the scenarios start from agrees with the rows. */
  lemma BaselineFits(c: Conversions, telemetry: Object, costs: CostModel, rows: seq<UnitRow>)
    requires CostsInRange(costs) && UnitEconomics(c, telemetry, costs) == Success(rows)
    ensures var b := BaselineOf(c, telemetry, costs, rows);
            BaselineOk(b) && RowsMatch(b, rows) && RowsOk(rows)
  {
    EconomicsRows(c, telemetry, costs);
    FactorsKnown(c, telemetry, costs, rows);
    forall i | 0 <= i < |rows| ensures rows[i].tier == TRACKED_TIERS[i] {
      assert IsTierRow(c, telemetry, costs, TRACKED_TIERS[i], rows[i]);
    }
    RowsFound(rows);
    var b := BaselineOf(c, telemetry, costs, rows);
    forall i | 0 <= i < |rows|
      ensures RowMatches(b, TRACKED_TIERS[i], rows[i]) && 0.0 <= b.factors[TRACKED_TIERS[i]] <= 1.0
    {
      TierMatches(c, telemetry, costs, TRACKED_TIERS[i], rows[i], b);
    }
    MatchedBaselineOk(b, costs, rows);
  }

  lemma MatchedBaselineOk(b: Baseline, costs: CostModel, rows: seq<UnitRow>)
    requires CostsInRange(costs) && b.mix == costs.annualMix && RowsMatch(b, rows) && RowsOk(rows)
    requires forall i | 0 <= i < |rows| :: 0.0 <= b.factors[TRACKED_TIERS[i]] <= 1.0
    ensures BaselineOk(b)
  {
    forall tier | tier in TRACKED_TIERS
      ensures && tier in b.rows && tier in b.mix && tier in b.factors && RowOk(b.rows[tier])
              && 0.0 <= b.mix[tier] <= 1.0 && 0.0 <= b.factors[tier] <= 1.0
    {
      var i :| 0 <= i < |TRACKED_TIERS| && TRACKED_TIERS[i] == tier;
      assert RowMatches(b, TRACKED_TIERS[i], rows[i]);
    }
  }

  // ------------------------------------------------- facts about every packet

  /** What the packet computed on the way. */
  predicate ComputedFrom(c: Conversions, telemetry: Object, p: Parsed, packet: Packet, llm: map<string, Object>,
                         totals: Totals)
  {
    && UnitEconomics(c, telemetry, p.costs) == Success(packet.rows)
    && Accumulate(c, llm, packet.rows, ZERO_TOTALS) == Success(totals)
    && packet.metrics == MetricsOf(totals, p.signals, p.multiplier)
    && packet.totals == RoundTotals(totals)
  }

  lemma PublishedAsMeasured(c: Conversions, telemetry: Object, a: Object, p: Parsed, rows: seq<UnitRow>, m: Metrics,
                            totals: Totals)
    requires p.thresholds.requiredCloses >= 1 && Publish(c, telemetry, a, p, rows, m, totals).Success?
    ensures var packet := Publish(c, telemetry, a, p, rows, m, totals).value;
            packet.rows == rows && packet.metrics == m && packet.totals == totals
  {
  }

  lemma Stages(c: Conversions, telemetry: Object, a: Object)
    returns (p: Parsed, rows: seq<UnitRow>, m: Metrics, totals: Totals)
    requires FinanceOutputs(c, telemetry, a).Success?
    ensures ParseAssumptions(c, a) == Success(p) && UnitEconomics(c, telemetry, p.costs) == Success(rows)
    ensures Measure(c, rows, telemetry, p.signals, p.multiplier) == Success((m, totals))
    ensures Publish(c, telemetry, a, p, rows, m, totals) == FinanceOutputs(c, telemetry, a)
  {
    p := ParseAssumptions(c, a).value;
    rows := UnitEconomics(c, telemetry, p.costs).value;
    var measured := Measure(c, rows, telemetry, p.signals, p.multiplier).value;
    m, totals := measured.0, measured.1;
  }

  lemma MeasuredFrom(c: Conversions, rows: seq<UnitRow>, telemetry: Object, signals: Signals, multiplier: real)
    returns (llm: map<string, Object>, totals: Totals)
    requires Measure(c, rows, telemetry, signals, multiplier).Success?
    ensures Accumulate(c, llm, rows, ZERO_TOTALS) == Success(totals)
    ensures Measure(c, rows, telemetry, signals, multiplier).value ==
            (MetricsOf(totals, signals, multiplier), RoundTotals(totals))
  {
    llm := IndexRows(c, ListField(telemetry, "tier_llm_usage").value, "tier_llm_usage", map[]).value;
    totals := Accumulate(c, llm, rows, ZERO_TOTALS).value;
  }

  lemma PacketComputed(c: Conversions, telemetry: Object, a: Object)
    returns (p: Parsed, llm: map<string, Object>, totals: Totals)
    requires FinanceOutputs(c, telemetry, a).Success?
    ensures ParseAssumptions(c, a) == Success(p)
    ensures ComputedFrom(c, telemetry, p, FinanceOutputs(c, telemetry, a).value, llm, totals)
  {
    var rows, m, rounded;
    p, rows, m, rounded := Stages(c, telemetry, a);
    PublishedAsMeasured(c, telemetry, a, p, rows, m, rounded);
    llm, totals := MeasuredFrom(c, rows, telemetry, p.signals, p.multiplier);
  }

  /** Whatever the telemetry and the assumptions, a published discount impact is a percentage, a
      stress margin is never above the blended margin, and when every tier earns something the
      blended margin lies within any bounds of the tier margins. */
  lemma PacketKeepsBounds(c: Conversions, telemetry: Object, a: Object, low: real, high: real)
    requires FinanceOutputs(c, telemetry, a).Success?
    ensures var packet := FinanceOutputs(c, telemetry, a).value;
            && 0.0 <= packet.metrics.discount <= 100.0
            && packet.metrics.stress <= packet.metrics.blended
            && 0.0 <= packet.metrics.p95
            && ((forall i | 0 <= i < |packet.rows| ::
                   packet.rows[i].effective > 0.0 && low <= packet.rows[i].margin <= high)
                ==> low <= packet.metrics.blended <= high)
  {
    var packet := FinanceOutputs(c, telemetry, a).value;
    var p, llm, totals := PacketComputed(c, telemetry, a);
    EconomicsRows(c, telemetry, p.costs);
    RoundGrid(0.0, Two);
    AccumulatedOk(c, llm, packet.rows, ZERO_TOTALS);
    MarginsKeepBounds(totals, p.signals, p.multiplier);
    if forall i | 0 <= i < |packet.rows| :: packet.rows[i].effective > 0.0 && low <= packet.rows[i].margin <= high {
      BlendedBetweenTiers(c, llm, packet.rows, p.signals, p.multiplier, low, high);
    }
  }

  /** In every packet, a scenario whose multipliers are all one reports the packet's own effective
      revenue to within four and a half cents. */
  lemma PacketOnes(c: Conversions, telemetry: Object, a: Object, name: string, sub: Object, price: Object)
    requires FinanceOutputs(c, telemetry, a).Success?
    requires AllOnes(c, sub) && AllOnes(c, price) && Strip(name) != ""
    ensures var packet, costs := FinanceOutputs(c, telemetry, a).value, ParseAssumptions(c, a).value.costs;
            var scenario := OneScenario(c, BaselineOf(c, telemetry, costs, packet.rows),
                                        ScenarioJson(name, sub, price));
            scenario.Success? && -0.045 <= scenario.value.effective - packet.totals.effective <= 0.045
  {
    var packet := FinanceOutputs(c, telemetry, a).value;
    var p, llm, totals := PacketComputed(c, telemetry, a);
    BaselineFits(c, telemetry, p.costs, packet.rows);
    OnesReproduceTotals(c, llm, BaselineOf(c, telemetry, p.costs, packet.rows), packet.rows, name, sub, price);
  }
}
