/** What a packet publishes, from the telemetry and the assumptions it is computed from. */
module FinancePublished {
  import FinanceAssumptions
  import opened FinanceCommon
  import opened FinanceEngine
  import opened FinancePacket
  import opened FinanceReading
  import opened JsonValue
  import opened Rounding
  import opened Text

  // ------------------------------------------------------- the assumptions read

  predicate NumberAt(c: Conversions, fields: Object, key: string, x: real) {
    c.toFloat(Field(fields, key)) == Some(x)
  }

  predicate TierNumbers(c: Conversions, fields: Object, key: string, m: map<string, real>) {
    && Field(fields, key).JObj?
    && forall tier | tier in TIER_NAMES :: tier in m && NumberAt(c, Field(fields, key).fields, tier, m[tier])
  }

  predicate CostsAre(c: Conversions, a: Object, costs: CostModel) {
    && TierNumbers(c, a, "annual_mix_by_tier", costs.annualMix)
    && TierNumbers(c, a, "infra_cogs_percent_of_" + "effective_mrr_by_tier", costs.infraPercent)
    && TierNumbers(c, a, "support_cogs_per_active_" + "subscription_usd_by_tier", costs.supportPerSubscription)
    && NumberAt(c, a, "support_cogs_per_dunning_event_usd", costs.supportPerDunning)
  }

  predicate SignalsAre(c: Conversions, a: Object, signals: Signals, multiplier: real) {
    && Field(a, "conversion_signals").JObj? && Field(a, "stress_scenario").JObj?
    && var fields := Field(a, "conversion_signals").fields;
    && NumberAt(c, fields, "growth_to_pro_" + "conversion_mom_delta_percent", signals.growthToPro)
    && NumberAt(c, fields, "pro_to_enterprise_" + "conversion_mom_delta_percent", signals.proToEnterprise)
    && NumberAt(c, Field(a, "stress_scenario").fields, "infra_cost_multiplier", multiplier)
  }

  predicate ThresholdsAre(c: Conversions, a: Object, t: Thresholds) {
    && Field(a, "thresholds").JObj?
    && var fields := Field(a, "thresholds").fields;
    && NumberAt(c, fields, "min_blended_gross_margin_percent", t.minBlended)
    && NumberAt(c, fields, "max_p95_tenant_llm_cogs_pct_mrr", t.maxP95)
    && NumberAt(c, fields, "max_annual_discount_impact_percent", t.maxDiscount)
    && NumberAt(c, fields, "min_growth_to_pro_" + "conversion_mom_delta_percent", t.minGrowthToPro)
    && NumberAt(c, fields, "min_pro_to_enterprise_" + "conversion_mom_delta_percent", t.minProToEnterprise)
    && NumberAt(c, fields, "min_stress_margin_percent", t.minStress)
    && (if "required_consecutive_margin_closes" in fields
        then c.toInt(fields["required_consecutive_margin_closes"]) == Some(t.requiredCloses)
        else t.requiredCloses == 2)
  }

  predicate CloseIs(c: Conversions, item: Json, close: Close) {
    && item.JObj?
    && TextOf(c, Field(item.fields, "month")) == close.month != ""
    && NumberAt(c, item.fields, "blended_gross_margin_percent", close.blended)
  }

  predicate HistoryIs(c: Conversions, a: Object, closes: seq<Close>) {
    var items := Items(a, "close_history");
    |closes| == |items| && forall i | 0 <= i < |items| :: CloseIs(c, items[i], closes[i])
  }

  /** What the assumptions say. */
  predicate AssumptionsAre(c: Conversions, a: Object, p: Parsed) {
    && CostsAre(c, a, p.costs) && SignalsAre(c, a, p.signals, p.multiplier)
    && ThresholdsAre(c, a, p.thresholds) && HistoryIs(c, a, p.history)
  }

  lemma TiersRead(c: Conversions, a: Object, key: string, low: Option<real>, high: Option<real>, m: map<string, real>)
    requires TierFloatMap(c, Field(a, key), key, low, high) == Success(m)
    ensures TierNumbers(c, a, key, m)
  {
    ParsedTiers(c, Field(a, key).fields, key, low, high, TRACKED_TIERS, map[]);
    forall tier | tier in TIER_NAMES ensures tier in m && NumberAt(c, Field(a, key).fields, tier, m[tier]) {
      assert tier in TRACKED_TIERS;
    }
  }

  lemma ThresholdsRead(c: Conversions, a: Object, t: Thresholds)
    requires Lawful(c) && ParseThresholds(c, Field(a, "thresholds")) == Success(t)
    ensures ThresholdsAre(c, a, t)
  {
  }

  lemma HistoryRead(c: Conversions, a: Object, closes: seq<Close>)
    requires CloseHistory(c, Field(a, "close_history")) == Success(closes)
    ensures HistoryIs(c, a, closes)
  {
    var items := Items(a, "close_history");
    if Field(a, "close_history").JList? {
      ParsedHistory(c, items);
      forall i | 0 <= i < |items| ensures CloseIs(c, items[i], closes[i]) {
        assert ParseClose(c, items[i]) == Success(closes[i]);
      }
    }
  }

  lemma PartsParsed(c: Conversions, a: Object, p: Parsed)
    requires ParseAssumptions(c, a) == Success(p)
    ensures ParseCosts(c, a) == Success(p.costs) && ParseSignals(c, a) == Success((p.signals, p.multiplier))
    ensures ParseThresholds(c, Field(a, "thresholds")) == Success(p.thresholds)
    ensures CloseHistory(c, Field(a, "close_history")) == Success(p.history)
  {
  }

  lemma MapsParsed(c: Conversions, a: Object, costs: CostModel)
    requires ParseCosts(c, a) == Success(costs)
    ensures TierFloatMap(c, Field(a, "annual_mix_by_tier"), "annual_mix_by_tier", Some(0.0), Some(1.0)) ==
            Success(costs.annualMix)
    ensures TierFloatMap(c, Field(a, FinanceAssumptions.INFRA_KEY), FinanceAssumptions.INFRA_KEY, Some(0.0), None) ==
            Success(costs.infraPercent)
    ensures TierFloatMap(c, Field(a, FinanceAssumptions.SUPPORT_KEY), FinanceAssumptions.SUPPORT_KEY, Some(0.0), None)
            == Success(costs.supportPerSubscription)
    ensures NumberAt(c, a, "support_cogs_per_dunning_event_usd", costs.supportPerDunning)
  {
  }

  lemma CostsParsed(c: Conversions, a: Object, costs: CostModel)
    requires ParseCosts(c, a) == Success(costs)
    ensures CostsAre(c, a, costs)
  {
    MapsParsed(c, a, costs);
    TiersRead(c, a, "annual_mix_by_tier", Some(0.0), Some(1.0), costs.annualMix);
    TiersRead(c, a, FinanceAssumptions.INFRA_KEY, Some(0.0), None, costs.infraPercent);
    TiersRead(c, a, FinanceAssumptions.SUPPORT_KEY, Some(0.0), None, costs.supportPerSubscription);
  }

  lemma SignalsParsed(c: Conversions, a: Object, signals: Signals, multiplier: real)
    requires ParseSignals(c, a) == Success((signals, multiplier))
    ensures SignalsAre(c, a, signals, multiplier)
  {
  }

  lemma AssumptionsParsed(c: Conversions, a: Object, p: Parsed)
    requires Lawful(c) && ParseAssumptions(c, a) == Success(p)
    ensures AssumptionsAre(c, a, p)
  {
    PartsParsed(c, a, p);
    CostsParsed(c, a, p.costs);
    SignalsParsed(c, a, p.signals, p.multiplier);
    ThresholdsRead(c, a, p.thresholds);
    HistoryRead(c, a, p.history);
  }

  // ------------------------------------------------------- rows and metrics

  ghost predicate RowRead(c: Conversions, telemetry: Object, costs: CostModel, tier: string, row: UnitRow) {
    HasTier(costs, tier) && exists r: TierInputs :: Reads(c, telemetry, tier, r) && RowSays(row, tier, r, costs)
  }

  ghost predicate RowsSay(c: Conversions, telemetry: Object, costs: CostModel, rows: seq<UnitRow>) {
    |rows| == 4 && forall i | 0 <= i < 4 :: RowRead(c, telemetry, costs, TIER_NAMES[i], rows[i])
  }

  lemma AllRowsRead(c: Conversions, telemetry: Object, costs: CostModel)
    requires Lawful(c) && CostsInRange(costs) && UnitEconomics(c, telemetry, costs).Success?
    ensures RowsSay(c, telemetry, costs, UnitEconomics(c, telemetry, costs).value)
  {
    var rows := UnitEconomics(c, telemetry, costs).value;
    var first := RowsRead(c, telemetry, costs, 0);
    forall i | 0 <= i < 4 ensures RowRead(c, telemetry, costs, TIER_NAMES[i], rows[i]) {
      var r := RowsRead(c, telemetry, costs, i);
    }
  }

  /** The rows, metrics and totals of a packet are those of the numbers in the telemetry and in the
      assumptions, the p95 metric the greatest share of any tier. */
  lemma PacketMeasures(c: Conversions, telemetry: Object, a: Object) returns (p: Parsed, worst: real)
    requires Lawful(c) && FinanceOutputs(c, telemetry, a).Success?
    ensures AssumptionsAre(c, a, p)
    ensures var packet := FinanceOutputs(c, telemetry, a).value;
            && RowsSay(c, telemetry, p.costs, packet.rows)
            && MetricsSay(packet.metrics, packet.rows, p.signals, p.multiplier)
            && TotalsSay(packet.totals, packet.rows)
            && GreatestShare(c, telemetry, packet.rows, worst) && packet.metrics.p95 == Round(worst, Two)
  {
    var rows, m, totals;
    p, rows, m, totals := Stages(c, telemetry, a);
    PublishedAsMeasured(c, telemetry, a, p, rows, m, totals);
    AssumptionsParsed(c, a, p);
    AllRowsRead(c, telemetry, p.costs);
    MeasuredSays(c, rows, telemetry, p.signals, p.multiplier);
    worst := P95Published(c, rows, telemetry, p.signals, p.multiplier);
  }

  // ------------------------------------------------------------------- gates

  function NumberOr(c: Conversions, fields: Object, key: string): real {
    if key in fields && c.toFloat(fields[key]).Some? then c.toFloat(fields[key]).value else 0.0
  }

  /** The yearly costs of hosting it oneself; a missing one counts nothing. */
  function OwnHosting(c: Conversions, fields: Object): real {
    NumberOr(c, fields, "annual_staffing_usd") + NumberOr(c, fields, "annual_oncall_usd")
    + NumberOr(c, fields, "annual_security_compliance_usd") + NumberOr(c, fields, "annual_infra_ops_usd")
    + NumberOr(c, fields, "annual_tooling_usd")
  }

  predicate HostingSays(c: Conversions, a: Object, effective: real, hosting: Hosting) {
    var inputs := GetOr(a, "self_hosted_tco_inputs", JObj(map[]));
    && inputs.JObj?
    && hosting.arr == Round(12.0 * effective, Two)
    && hosting.own == Round(OwnHosting(c, inputs.fields), Two)
    && hosting.delta == Round(12.0 * effective - OwnHosting(c, inputs.fields), Two)
  }

  lemma OneCost(c: Conversions, fields: Object, key: string)
    requires Lawful(c) && ParseFloat(c, GetOr(fields, key, JReal(0.0)), key, Some(0.0), None).Success?
    ensures ParseFloat(c, GetOr(fields, key, JReal(0.0)), key, Some(0.0), None).value == NumberOr(c, fields, key)
  {
  }

  lemma HeadCost(c: Conversions, fields: Object, keys: seq<string>, total: real)
    requires Lawful(c) && keys != [] && SelfHostedTotal(c, fields, keys, total).Success?
    ensures SelfHostedTotal(c, fields, keys, total) ==
            SelfHostedTotal(c, fields, keys[1..], total + NumberOr(c, fields, keys[0]))
  {
    OneCost(c, fields, keys[0]);
  }

  lemma HostingAdds(c: Conversions, fields: Object)
    requires Lawful(c)
    requires SelfHostedTotal(c, fields, FinanceAssumptions.SELF_HOSTED_KEYS, 0.0).Success?
    ensures SelfHostedTotal(c, fields, FinanceAssumptions.SELF_HOSTED_KEYS, 0.0).value == OwnHosting(c, fields)
  {
    var k := FinanceAssumptions.SELF_HOSTED_KEYS;
    var one := NumberOr(c, fields, k[0]);
    var two := one + NumberOr(c, fields, k[1]);
    var three := two + NumberOr(c, fields, k[2]);
    var four := three + NumberOr(c, fields, k[3]);
    HeadCost(c, fields, k, 0.0);
    HeadCost(c, fields, k[1..], one);
    assert k[1..][1..] == k[2..] && k[2..][1..] == k[3..] && k[3..][1..] == k[4..] && k[4..][1..] == [];
    HeadCost(c, fields, k[2..], two);
    HeadCost(c, fields, k[3..], three);
    HeadCost(c, fields, k[4..], four);
  }

  lemma PublishedGates(c: Conversions, telemetry: Object, a: Object, p: Parsed, rows: seq<UnitRow>, m: Metrics,
                       totals: Totals)
    requires p.thresholds.requiredCloses >= 1 && Publish(c, telemetry, a, p, rows, m, totals).Success?
    ensures var packet := Publish(c, telemetry, a, p, rows, m, totals).value;
            && Field(telemetry, "window").JObj?
            && var month := TextOf(c, Field(Field(telemetry, "window").fields, "label"));
            && packet.history == p.history + [Close(month, m.blended)]
            && GateResults(m, p.thresholds, packet.history) == Success(packet.gates)
            && packet.passed == AllPass(packet.gates) && packet.thresholds == p.thresholds
  {
  }

  lemma HostingRead(c: Conversions, a: Object, effective: real)
    requires Lawful(c) && HostingOf(c, a, effective).Success?
    ensures HostingSays(c, a, effective, HostingOf(c, a, effective).value)
  {
    HostingAdds(c, GetOr(a, "self_hosted_tco_inputs", JObj(map[])).fields);
    assert effective * 12.0 == 12.0 * effective;
  }

  lemma PublishedHosting(c: Conversions, telemetry: Object, a: Object, p: Parsed, rows: seq<UnitRow>, m: Metrics,
                         totals: Totals)
    requires p.thresholds.requiredCloses >= 1 && Publish(c, telemetry, a, p, rows, m, totals).Success?
    ensures HostingOf(c, a, totals.effective) == Success(Publish(c, telemetry, a, p, rows, m, totals).value.hosting)
  {
  }

  lemma GatesRead(m: Metrics, t: Thresholds, history: seq<Close>)
    requires t.requiredCloses >= 1 && GateResults(m, t, history).Success?
    ensures GatesSay(GateResults(m, t, history).value, m, t, history)
  {
    var n := |history| - t.requiredCloses;
    assert history == history[..n] + history[n..];
    GatesOnLastCloses(m, t, history[..n], history[n..]);
  }

  /** A packet judges its own metrics by the thresholds of the assumptions, its margin also by the last
      closes, the current one included; it passes when all five gates do, and compares a year of its
      revenue with the costs of hosting it oneself. */
  lemma PacketJudges(c: Conversions, telemetry: Object, a: Object) returns (p: Parsed)
    requires Lawful(c) && FinanceOutputs(c, telemetry, a).Success?
    ensures AssumptionsAre(c, a, p)
    ensures var packet := FinanceOutputs(c, telemetry, a).value;
            && Field(telemetry, "window").JObj?
            && var month := TextOf(c, Field(Field(telemetry, "window").fields, "label"));
            && packet.history == p.history + [Close(month, packet.metrics.blended)]
            && GatesSay(packet.gates, packet.metrics, p.thresholds, packet.history)
            && (packet.passed <==> packet.gates.margin && packet.gates.llm && packet.gates.discount
                                   && packet.gates.expansion && packet.gates.stress)
            && HostingSays(c, a, packet.totals.effective, packet.hosting)
  {
    var rows, m, totals;
    p, rows, m, totals := Stages(c, telemetry, a);
    PublishedAsMeasured(c, telemetry, a, p, rows, m, totals);
    AssumptionsParsed(c, a, p);
    PublishedGates(c, telemetry, a, p, rows, m, totals);
    PublishedHosting(c, telemetry, a, p, rows, m, totals);
    HostingRead(c, a, totals.effective);
    var packet := FinanceOutputs(c, telemetry, a).value;
    GatesRead(packet.metrics, p.thresholds, packet.history);
  }
}
