/** The finance packet: unit economics per tier, metrics over all tiers, and the gates
    (`finance_committee_packet_engine.py`). */
module FinanceEngine {
  import opened FinanceCommon
  import opened JsonValue
  import opened Rounding
  import opened Text

  datatype UnitRow = UnitRow(
    tier: string, mrr: real, effective: real, llmCogs: real, infraCogs: real, supportCogs: real,
    margin: real, active: int, dunning: int)

  /** The assumptions the unit economics are computed from. */
  datatype CostModel = CostModel(
    annualMix: map<string, real>, infraPercent: map<string, real>, supportPerSubscription: map<string, real>,
    supportPerDunning: real)

  predicate HasTier(costs: CostModel, tier: string) {
    tier in costs.annualMix && tier in costs.infraPercent && tier in costs.supportPerSubscription
  }

  predicate HasTiers(costs: CostModel) {
    forall tier | tier in TRACKED_TIERS :: HasTier(costs, tier)
  }

  /** What the packet's parser lets through. */
  predicate CostsInRange(costs: CostModel) {
    && HasTiers(costs) && 0.0 <= costs.supportPerDunning
    && forall tier | tier in TRACKED_TIERS ::
         0.0 <= costs.annualMix[tier] <= 1.0 && 0.0 <= costs.infraPercent[tier]
         && 0.0 <= costs.supportPerSubscription[tier]
  }

  // ------------------------------------------------------------ unit economics

  datatype TierInputs = TierInputs(price: real, factor: real, active: int, dunning: int, llmCost: real)

  predicate InputsInRange(inputs: TierInputs) {
    0.0 <= inputs.price && 0.0 <= inputs.factor <= 1.0 && 0 <= inputs.active && 0 <= inputs.dunning
    && 0.0 <= inputs.llmCost
  }

  function ObjectAt(m: map<string, Object>, tier: string): Object {
    if tier in m then m[tier] else map[] // every field then takes its default, as in the source
  }

  function ParseInputs(c: Conversions, pricing: Object, subscriptions: map<string, Object>, llm: map<string, Object>,
                       tier: string): (r: Result<TierInputs>)
    ensures r.Success? ==> InputsInRange(r.value)
  {
    var price := Field(pricing, tier);
    if !price.JObj? then Failure("pricing_reference")
    else
      var monthly :- ParseFloat(c, Field(price.fields, "monthly_price_usd"), "monthly_price_usd", Some(0.0), None);
      var factor :- ParseFloat(c, Field(price.fields, "annual_monthly_factor"), "annual_monthly_factor", Some(0.0),
                               Some(1.0));
      var subscription := ObjectAt(subscriptions, tier);
      var active :- ParseInt(c, GetOr(subscription, "active_subscriptions", JInt(0)), "active_subscriptions", Some(0));
      var dunning :- ParseInt(c, GetOr(subscription, "dunning_events", JInt(0)), "dunning_events", Some(0));
      var cost :- ParseFloat(c, GetOr(ObjectAt(llm, tier), "total_cost_usd", JReal(0.0)), "total_cost_usd", Some(0.0),
                             None);
      Success(TierInputs(monthly, factor, active, dunning, cost))
  }

  function GrossMrr(inputs: TierInputs): real {
    inputs.price * inputs.active as real
  }

  function AnnualFactor(mix: real, factor: real): real {
    1.0 - mix * (1.0 - factor)
  }

  function EffectiveMrr(inputs: TierInputs, mix: real): real {
    GrossMrr(inputs) * AnnualFactor(mix, inputs.factor)
  }

  function SupportCogs(inputs: TierInputs, perSubscription: real, perDunning: real): real {
    inputs.active as real * perSubscription + inputs.dunning as real * perDunning
  }

  function Cogs(row: UnitRow): real {
    row.llmCogs + row.infraCogs + row.supportCogs
  }

  function InfraCogs(effective: real, percent: real): real {
    effective * (percent / 100.0)
  }

  /** The row keeps every amount in cents, and its margin is that of the rounded amounts. */
  function RoundedRow(tier: string, gross: real, effective: real, llm: real, infra: real, support: real,
                      active: int, dunning: int): UnitRow {
    var row := UnitRow(tier, Round(gross, Two), Round(effective, Two), Round(llm, Two), Round(infra, Two),
                       Round(support, Two), 0.0, active, dunning);
    row.(margin := Round(SafeMargin(row.effective, Cogs(row)), Two))
  }

  function UnitRowOf(tier: string, inputs: TierInputs, costs: CostModel): UnitRow
    requires HasTier(costs, tier)
  {
    var effective := EffectiveMrr(inputs, costs.annualMix[tier]);
    RoundedRow(tier, GrossMrr(inputs), effective, inputs.llmCost, InfraCogs(effective, costs.infraPercent[tier]),
               SupportCogs(inputs, costs.supportPerSubscription[tier], costs.supportPerDunning),
               inputs.active, inputs.dunning)
  }

  function TierRow(c: Conversions, pricing: Object, subscriptions: map<string, Object>, llm: map<string, Object>,
                   costs: CostModel, tier: string): Result<UnitRow> {
    var inputs :- ParseInputs(c, pricing, subscriptions, llm, tier);
    if HasTier(costs, tier) then Success(UnitRowOf(tier, inputs, costs)) else Failure("costs")
  }

  type RowMaker = string -> Result<UnitRow>

  function BuildRows(make: RowMaker, tiers: seq<string>, rows: seq<UnitRow>): Result<seq<UnitRow>>
    decreases tiers
  {
    if tiers == [] then Success(rows)
    else
      var row :- make(tiers[0]);
      BuildRows(make, tiers[1..], rows + [row])
  }

  function ListField(telemetry: Object, field: string): Result<seq<Json>> {
    var j := Field(telemetry, field);
    if j.JList? then Success(j.items) else Failure(field)
  }

  /** What `build_tier_unit_economics` returns. */
  function UnitEconomics(c: Conversions, telemetry: Object, costs: CostModel): Result<seq<UnitRow>> {
    var pricing := Field(telemetry, "pricing_reference");
    if !pricing.JObj? then Failure("pricing_reference")
    else
      var subscriptionRows :- ListField(telemetry, "tier_subscription_snapshot");
      var llmRows :- ListField(telemetry, "tier_llm_usage");
      var subscriptions :- IndexRows(c, subscriptionRows, "tier_subscription_snapshot", map[]);
      var llm :- IndexRows(c, llmRows, "tier_llm_usage", map[]);
      BuildRows(tier => TierRow(c, pricing.fields, subscriptions, llm, costs, tier), TRACKED_TIERS, [])
  }

  method BuildTierUnitEconomics(c: Conversions, telemetry: Object, costs: CostModel) returns (r: Result<seq<UnitRow>>)
    ensures r == UnitEconomics(c, telemetry, costs)
  {
    var pricing := Field(telemetry, "pricing_reference");
    if !pricing.JObj? {
      return Failure("pricing_reference");
    }
    var subscriptionRows :- ListField(telemetry, "tier_subscription_snapshot");
    var llmRows :- ListField(telemetry, "tier_llm_usage");
    var indexed := IndexByTier(c, subscriptionRows, "tier_subscription_snapshot");
    var subscriptions :- indexed;
    indexed := IndexByTier(c, llmRows, "tier_llm_usage");
    var llm :- indexed;
    var make: RowMaker := tier => TierRow(c, pricing.fields, subscriptions, llm, costs, tier);
    var rows: seq<UnitRow> := [];
    assert TRACKED_TIERS[0..] == TRACKED_TIERS;
    for i := 0 to |TRACKED_TIERS|
      invariant BuildRows(make, TRACKED_TIERS[i..], rows) == BuildRows(make, TRACKED_TIERS, [])
    {
      assert TRACKED_TIERS[i..][1..] == TRACKED_TIERS[i + 1..];
      var row :- make(TRACKED_TIERS[i]);
      rows := rows + [row];
    }
    return Success(rows);
  }

  // ----------------------------------------------------------------- metrics

  datatype Totals = Totals(mrr: real, effective: real, llm: real, infra: real, support: real, worstP95: real)

  const ZERO_TOTALS := Totals(0.0, 0.0, 0.0, 0.0, 0.0, 0.0)

  /** The p95 cost of a tenant of the tier. */
  function P95Cost(c: Conversions, llm: map<string, Object>, tier: string): (r: Result<real>)
    ensures r.Success? ==> 0.0 <= r.value
  {
    var percentiles := Field(ObjectAt(llm, tier), "tenant_monthly_cost_percentiles_usd");
    if percentiles.JObj? then ParseFloat(c, GetOr(percentiles.fields, "p95", JReal(0.0)), "p95", Some(0.0), None)
    else Success(0.0)
  }

  /** The running maximum of the p95 cost of a tenant, as a percentage of what a tenant pays. */
  function WorstP95(c: Conversions, llm: map<string, Object>, row: UnitRow, worst: real): (r: Result<real>)
    ensures r.Success? ==> worst <= r.value
  {
    var cost :- P95Cost(c, llm, row.tier);
    var perTenant := if row.active > 0 then row.effective / row.active as real else 0.0;
    Success(if perTenant > 0.0 then Max(worst, cost / perTenant * 100.0) else worst)
  }

  function Accumulate(c: Conversions, llm: map<string, Object>, rows: seq<UnitRow>, totals: Totals): Result<Totals>
    decreases rows
  {
    if rows == [] then Success(totals)
    else
      var worst :- WorstP95(c, llm, rows[0], totals.worstP95);
      Accumulate(c, llm, rows[1..], AddRow(totals, rows[0], worst))
  }

  function AddRow(totals: Totals, row: UnitRow, worst: real): Totals {
    Totals(totals.mrr + row.mrr, totals.effective + row.effective, totals.llm + row.llmCogs,
           totals.infra + row.infraCogs, totals.support + row.supportCogs, worst)
  }

  datatype Signals = Signals(growthToPro: real, proToEnterprise: real)

  datatype Metrics = Metrics(
    blended: real, p95: real, discount: real, growthToPro: real, proToEnterprise: real, stress: real)

  function SumCogs(totals: Totals): real {
    totals.llm + totals.infra + totals.support
  }

  function TotalCogs(totals: Totals, infraMultiplier: real): real {
    totals.llm + totals.infra * infraMultiplier + totals.support
  }

  function DiscountImpact(totals: Totals): real {
    if totals.mrr > 0.0 then (totals.mrr - totals.effective) / totals.mrr * 100.0 else 0.0
  }

  function MetricsOf(totals: Totals, signals: Signals, multiplier: real): Metrics {
    Metrics(
      Round(SafeMargin(totals.effective, SumCogs(totals)), Two),
      Round(totals.worstP95, Two),
      Round(DiscountImpact(totals), Two),
      Round(signals.growthToPro, Four),
      Round(signals.proToEnterprise, Four),
      Round(SafeMargin(totals.effective, TotalCogs(totals, multiplier)), Two))
  }

  function RoundTotals(totals: Totals): Totals {
    Totals(Round(totals.mrr, Two), Round(totals.effective, Two), Round(totals.llm, Two),
           Round(totals.infra, Two), Round(totals.support, Two), totals.worstP95)
  }

  /** What `compute_metrics` returns: the metrics and the rounded totals. */
  function Measure(c: Conversions, rows: seq<UnitRow>, telemetry: Object, signals: Signals, multiplier: real)
    : Result<(Metrics, Totals)>
  {
    var llmRows :- ListField(telemetry, "tier_llm_usage");
    var llm :- IndexRows(c, llmRows, "tier_llm_usage", map[]);
    var totals :- Accumulate(c, llm, rows, ZERO_TOTALS);
    Success((MetricsOf(totals, signals, multiplier), RoundTotals(totals)))
  }

  method ComputeMetrics(c: Conversions, rows: seq<UnitRow>, telemetry: Object, signals: Signals, multiplier: real)
    returns (r: Result<(Metrics, Totals)>)
    ensures r == Measure(c, rows, telemetry, signals, multiplier)
  {
    var llmRows :- ListField(telemetry, "tier_llm_usage");
    var indexed := IndexByTier(c, llmRows, "tier_llm_usage");
    var llm :- indexed;
    var totals := ZERO_TOTALS;
    assert rows[0..] == rows;
    for i := 0 to |rows|
      invariant Accumulate(c, llm, rows[i..], totals) == Accumulate(c, llm, rows, ZERO_TOTALS)
    {
      assert rows[i..][1..] == rows[i + 1..];
      var worst :- WorstP95(c, llm, rows[i], totals.worstP95);
      totals := AddRow(totals, rows[i], worst);
    }
    return Success((MetricsOf(totals, signals, multiplier), RoundTotals(totals)));
  }

  // ------------------------------------------------------------------- gates

  datatype Gates = Gates(margin: bool, llm: bool, discount: bool, expansion: bool, stress: bool)

  predicate AllPass(gates: Gates) {
    gates.margin && gates.llm && gates.discount && gates.expansion && gates.stress
  }

  /** `build_gate_results` */
  function GateResults(metrics: Metrics, thresholds: Thresholds, history: seq<Close>): Result<Gates>
    requires thresholds.requiredCloses >= 1
  {
    if |history| < thresholds.requiredCloses then Failure("close_history")
    else
      var recent := history[|history| - thresholds.requiredCloses..];
      Success(Gates(
        metrics.blended >= thresholds.minBlended
        && (forall i | 0 <= i < |recent| :: recent[i].blended >= thresholds.minBlended),
        metrics.p95 <= thresholds.maxP95,
        metrics.discount <= thresholds.maxDiscount,
        metrics.growthToPro >= thresholds.minGrowthToPro && metrics.proToEnterprise >= thresholds.minProToEnterprise,
        metrics.stress >= thresholds.minStress))
  }

  // ---------------------------------------------------------- facts about rows

  /** A rounded row is consistent: nothing is negative, everything is in cents, and a discount never
      adds to what the tier pays. */
  predicate RowOk(row: UnitRow) {
    && 0.0 <= row.effective <= row.mrr
    && 0.0 <= row.llmCogs && 0.0 <= row.infraCogs && 0.0 <= row.supportCogs && 0 <= row.active
    && OnGrid(row.mrr, Two) && OnGrid(row.effective, Two)
    && OnGrid(row.llmCogs, Two) && OnGrid(row.infraCogs, Two) && OnGrid(row.supportCogs, Two)
    && row.margin == Round(SafeMargin(row.effective, Cogs(row)), Two)
  }

  lemma ProductAtMost(x: real, f: real)
    requires 0.0 <= x && 0.0 <= f <= 1.0
    ensures 0.0 <= x * f <= x
  {
    ProductNonNegative(x, f);
    ProductNonNegative(x, 1.0 - f);
    var rest := x * (1.0 - f);
    assert rest == x - x * f;
  }

  lemma ProductNonNegative(x: real, y: real)
    requires 0.0 <= x && 0.0 <= y
    ensures 0.0 <= x * y
  {
  }

  lemma FactorInRange(mix: real, factor: real)
    requires 0.0 <= mix <= 1.0 && 0.0 <= factor <= 1.0
    ensures 0.0 <= AnnualFactor(mix, factor) <= 1.0
  {
    var discount := 1.0 - factor;
    ProductAtMost(mix, discount);
    assert AnnualFactor(mix, factor) == 1.0 - mix * discount;
  }

  lemma RoundNonNegative(x: real, digits: Digits)
    requires 0.0 <= x
    ensures 0.0 <= Round(x, digits)
  {
    WholeOnGrid(0, digits);
    RoundAtLeast(x, 0.0, digits);
  }

  lemma RoundedRowIsOk(tier: string, gross: real, effective: real, llm: real, infra: real, support: real,
                       active: int, dunning: int)
    requires 0.0 <= effective <= gross && 0.0 <= llm && 0.0 <= infra && 0.0 <= support && 0 <= active
    ensures RowOk(RoundedRow(tier, gross, effective, llm, infra, support, active, dunning))
  {
    RoundMonotone(effective, gross, Two);
    RoundNonNegative(effective, Two);
    RoundNonNegative(llm, Two);
    RoundNonNegative(infra, Two);
    RoundNonNegative(support, Two);
    RoundGrid(gross, Two);
    RoundGrid(effective, Two);
    RoundGrid(llm, Two);
    RoundGrid(infra, Two);
    RoundGrid(support, Two);
  }

  lemma EffectiveAtMostGross(inputs: TierInputs, mix: real)
    requires InputsInRange(inputs) && 0.0 <= mix <= 1.0
    ensures 0.0 <= EffectiveMrr(inputs, mix) <= GrossMrr(inputs)
  {
    ProductNonNegative(inputs.price, inputs.active as real);
    FactorInRange(mix, inputs.factor);
    var gross, factor := GrossMrr(inputs), AnnualFactor(mix, inputs.factor);
    ProductAtMost(gross, factor);
    assert EffectiveMrr(inputs, mix) == gross * factor;
  }

  lemma SupportNonNegative(inputs: TierInputs, perSubscription: real, perDunning: real)
    requires InputsInRange(inputs) && 0.0 <= perSubscription && 0.0 <= perDunning
    ensures 0.0 <= SupportCogs(inputs, perSubscription, perDunning)
  {
    ProductNonNegative(inputs.active as real, perSubscription);
    ProductNonNegative(inputs.dunning as real, perDunning);
  }

  lemma UnitRowIsOk(tier: string, inputs: TierInputs, costs: CostModel)
    requires InputsInRange(inputs) && CostsInRange(costs) && tier in TRACKED_TIERS
    ensures RowOk(UnitRowOf(tier, inputs, costs))
  {
    var effective := EffectiveMrr(inputs, costs.annualMix[tier]);
    EffectiveAtMostGross(inputs, costs.annualMix[tier]);
    ProductNonNegative(effective, costs.infraPercent[tier] / 100.0);
    SupportNonNegative(inputs, costs.supportPerSubscription[tier], costs.supportPerDunning);
    RoundedRowIsOk(tier, GrossMrr(inputs), effective, inputs.llmCost, InfraCogs(effective, costs.infraPercent[tier]),
                   SupportCogs(inputs, costs.supportPerSubscription[tier], costs.supportPerDunning),
                   inputs.active, inputs.dunning);
  }

  ghost predicate RowsOk(rows: seq<UnitRow>) {
    forall i | 0 <= i < |rows| :: RowOk(rows[i])
  }

  /** The rows are exactly those of the tiers, in order. */
  lemma {:induction false} BuiltRowsAre(make: RowMaker, tiers: seq<string>, rows: seq<UnitRow>)
    requires BuildRows(make, tiers, rows).Success?
    ensures var all := BuildRows(make, tiers, rows).value;
            && |all| == |rows| + |tiers| && rows == all[..|rows|]
            && forall i | 0 <= i < |tiers| :: make(tiers[i]) == Success(all[|rows| + i])
    decreases tiers
  {
    if tiers != [] {
      var row := make(tiers[0]).value;
      var all := BuildRows(make, tiers, rows).value;
      BuiltRowsAre(make, tiers[1..], rows + [row]);
      PrefixRow(rows, row, all);
      forall i | 0 <= i < |tiers| ensures make(tiers[i]) == Success(all[|rows| + i]) {
        if i > 0 {
          assert tiers[i] == tiers[1..][i - 1];
          assert all[|rows| + i] == all[|rows + [row]| + (i - 1)];
        }
      }
    }
  }

  lemma PrefixRow(rows: seq<UnitRow>, row: UnitRow, all: seq<UnitRow>)
    requires |all| > |rows| && rows + [row] == all[..|rows| + 1]
    ensures rows == all[..|rows|] && all[|rows|] == row
  {
    assert all[|rows|] == (rows + [row])[|rows|];
    assert forall i | 0 <= i < |rows| :: all[i] == (rows + [row])[i];
  }

  /** What the telemetry says about one tier. */
  function TelemetryInputs(c: Conversions, telemetry: Object, tier: string): (r: Result<TierInputs>)
    ensures r.Success? ==> InputsInRange(r.value)
  {
    var pricing := Field(telemetry, "pricing_reference");
    if !pricing.JObj? then Failure("pricing_reference")
    else
      var subscriptionRows :- ListField(telemetry, "tier_subscription_snapshot");
      var llmRows :- ListField(telemetry, "tier_llm_usage");
      var subscriptions :- IndexRows(c, subscriptionRows, "tier_subscription_snapshot", map[]);
      var llm :- IndexRows(c, llmRows, "tier_llm_usage", map[]);
      ParseInputs(c, pricing.fields, subscriptions, llm, tier)
  }

  predicate IsTierRow(c: Conversions, telemetry: Object, costs: CostModel, tier: string, row: UnitRow) {
    var inputs := TelemetryInputs(c, telemetry, tier);
    inputs.Success? && HasTier(costs, tier) && row == UnitRowOf(tier, inputs.value, costs)
  }

  /** The unit economics are one consistent row for every tracked tier, in order. */
  lemma EconomicsRows(c: Conversions, telemetry: Object, costs: CostModel)
    requires CostsInRange(costs) && UnitEconomics(c, telemetry, costs).Success?
    ensures var rows := UnitEconomics(c, telemetry, costs).value;
            && |rows| == |TRACKED_TIERS| && RowsOk(rows)
            && forall i | 0 <= i < |rows| :: IsTierRow(c, telemetry, costs, TRACKED_TIERS[i], rows[i])
  {
    var pricing := Field(telemetry, "pricing_reference").fields;
    var subscriptions := IndexRows(c, ListField(telemetry, "tier_subscription_snapshot").value,
                                   "tier_subscription_snapshot", map[]).value;
    var llm := IndexRows(c, ListField(telemetry, "tier_llm_usage").value, "tier_llm_usage", map[]).value;
    var make: RowMaker := tier => TierRow(c, pricing, subscriptions, llm, costs, tier);
    var rows := UnitEconomics(c, telemetry, costs).value;
    BuiltRowsAre(make, TRACKED_TIERS, []);
    forall i | 0 <= i < |rows| ensures IsTierRow(c, telemetry, costs, TRACKED_TIERS[i], rows[i]) && RowOk(rows[i]) {
      assert make(TRACKED_TIERS[i]) == Success(rows[0 + i]);
      UnitRowIsOk(TRACKED_TIERS[i], TelemetryInputs(c, telemetry, TRACKED_TIERS[i]).value, costs);
    }
  }

  // ------------------------------------------------------- facts about totals

  predicate TotalsOk(totals: Totals) {
    && 0.0 <= totals.effective <= totals.mrr && 0.0 <= totals.llm && 0.0 <= totals.infra && 0.0 <= totals.support
    && 0.0 <= totals.worstP95
    && OnGrid(totals.mrr, Two) && OnGrid(totals.effective, Two)
  }

  lemma AddRowOk(totals: Totals, row: UnitRow, worst: real)
    requires TotalsOk(totals) && RowOk(row) && totals.worstP95 <= worst
    ensures TotalsOk(AddRow(totals, row, worst))
  {
    GridSum(totals.mrr, row.mrr, Two);
    GridSum(totals.effective, row.effective, Two);
  }

  lemma {:induction false} AccumulatedOk(c: Conversions, llm: map<string, Object>, rows: seq<UnitRow>, totals: Totals)
    requires RowsOk(rows) && TotalsOk(totals) && Accumulate(c, llm, rows, totals).Success?
    ensures TotalsOk(Accumulate(c, llm, rows, totals).value)
    decreases rows
  {
    if rows != [] {
      var worst := WorstP95(c, llm, rows[0], totals.worstP95).value;
      AddRowOk(totals, rows[0], worst);
      assert forall i | 0 <= i < |rows| - 1 :: rows[1..][i] == rows[i + 1];
      AccumulatedOk(c, llm, rows[1..], AddRow(totals, rows[0], worst));
    }
  }

  function SumOver(rows: seq<UnitRow>, amount: UnitRow -> real): real {
    if rows == [] then 0.0 else amount(rows[0]) + SumOver(rows[1..], amount)
  }

  /** The totals are the sums of the columns. */
  lemma {:induction false} TotalsAreSums(c: Conversions, llm: map<string, Object>, rows: seq<UnitRow>, totals: Totals)
    requires Accumulate(c, llm, rows, totals).Success?
    ensures var all := Accumulate(c, llm, rows, totals).value;
            && all.mrr == totals.mrr + SumOver(rows, (row: UnitRow) => row.mrr)
            && all.effective == totals.effective + SumOver(rows, (row: UnitRow) => row.effective)
            && SumCogs(all) == SumCogs(totals) + SumOver(rows, Cogs)
    decreases rows
  {
    if rows != [] {
      var worst := WorstP95(c, llm, rows[0], totals.worstP95).value;
      TotalsAreSums(c, llm, rows[1..], AddRow(totals, rows[0], worst));
    }
  }

  /** A tier with paying tenants whose p95 tenant costs this share of what a tenant pays. */
  ghost predicate HasShare(c: Conversions, llm: map<string, Object>, row: UnitRow, share: real) {
    && row.active > 0 && row.effective > 0.0 && P95Cost(c, llm, row.tier).Success?
    && share == P95Cost(c, llm, row.tier).value / (row.effective / row.active as real) * 100.0
  }

  lemma QuotientPositive(a: real, b: real)
    requires b > 0.0
    ensures a / b > 0.0 <==> a > 0.0
  {
    if a > 0.0 {
      assert a / b * b == a;
    } else {
      DivideMonotone(a, 0.0, b);
    }
  }

  lemma WorstStep(c: Conversions, llm: map<string, Object>, row: UnitRow, worst: real)
    requires WorstP95(c, llm, row, worst).Success?
    ensures var next := WorstP95(c, llm, row, worst).value;
            && (forall share | HasShare(c, llm, row, share) :: share <= next)
            && (next == worst || HasShare(c, llm, row, next))
  {
    if row.active > 0 {
      QuotientPositive(row.effective, row.active as real);
    }
  }

  /** The p95 metric is the greatest share of any tier, or what it was before. */
  lemma {:induction false} WorstIsGreatest(c: Conversions, llm: map<string, Object>, rows: seq<UnitRow>, totals: Totals)
    requires Accumulate(c, llm, rows, totals).Success?
    ensures var worst := Accumulate(c, llm, rows, totals).value.worstP95;
            && totals.worstP95 <= worst
            && (forall i, share | 0 <= i < |rows| && HasShare(c, llm, rows[i], share) :: share <= worst)
            && (worst == totals.worstP95 || exists i :: 0 <= i < |rows| && HasShare(c, llm, rows[i], worst))
    decreases rows
  {
    if rows != [] {
      var first := WorstP95(c, llm, rows[0], totals.worstP95).value;
      var worst := Accumulate(c, llm, rows, totals).value.worstP95;
      WorstStep(c, llm, rows[0], totals.worstP95);
      WorstIsGreatest(c, llm, rows[1..], AddRow(totals, rows[0], first));
      assert forall i | 0 < i < |rows| :: rows[i] == rows[1..][i - 1];
      if worst != first {
        var k :| 0 <= k < |rows| - 1 && HasShare(c, llm, rows[1..][k], worst);
        assert HasShare(c, llm, rows[k + 1], worst);
      }
    }
  }

  lemma DivideMonotone(a: real, b: real, s: real)
    requires a <= b && s > 0.0
    ensures a / s <= b / s
  {
  }

  /** A margin falls as costs rise, also when there is no revenue. */
  lemma MarginMonotone(revenue: real, less: real, more: real)
    requires less <= more
    ensures SafeMargin(revenue, more) <= SafeMargin(revenue, less)
  {
    if revenue > 0.0 {
      DivideMonotone(revenue - more, revenue - less, revenue);
    }
  }

  lemma DiscountInRange(totals: Totals)
    requires TotalsOk(totals)
    ensures 0.0 <= DiscountImpact(totals) <= 100.0
  {
    if totals.mrr > 0.0 {
      DivideMonotone(0.0, totals.mrr - totals.effective, totals.mrr);
      DivideMonotone(totals.mrr - totals.effective, totals.mrr, totals.mrr);
    }
  }

  lemma StressAtMostBlended(totals: Totals, multiplier: real)
    requires TotalsOk(totals) && multiplier >= 1.0
    ensures SafeMargin(totals.effective, TotalCogs(totals, multiplier)) <= SafeMargin(totals.effective, SumCogs(totals))
  {
    ProductNonNegative(totals.infra, multiplier - 1.0);
    assert totals.infra * (multiplier - 1.0) == totals.infra * multiplier - totals.infra;
    MarginMonotone(totals.effective, SumCogs(totals), TotalCogs(totals, multiplier));
  }

  /** The discount impact is a percentage, and the stress margin is never above the blended one for
      any multiplier of at least one; both hold of the rounded numbers. */
  lemma MarginsKeepBounds(totals: Totals, signals: Signals, multiplier: real)
    requires TotalsOk(totals) && multiplier >= 1.0
    ensures var m := MetricsOf(totals, signals, multiplier);
            0.0 <= m.discount <= 100.0 && m.stress <= m.blended && 0.0 <= m.p95
  {
    WholeOnGrid(0, Two);
    WholeOnGrid(100, Two);
    DiscountInRange(totals);
    RoundAtLeast(DiscountImpact(totals), 0.0, Two);
    RoundAtMost(DiscountImpact(totals), 100.0, Two);
    RoundAtLeast(totals.worstP95, 0.0, Two);
    StressAtMostBlended(totals, multiplier);
    RoundMonotone(SafeMargin(totals.effective, TotalCogs(totals, multiplier)),
                  SafeMargin(totals.effective, SumCogs(totals)), Two);
  }

  // ------------------------------------------------- blended between the tiers

  /** Revenue and costs between two cost rates stay between them. */
  predicate Between(revenue: real, cogs: real, low: real, high: real) {
    revenue * low <= cogs <= revenue * high
  }

  lemma BetweenAdds(r1: real, c1: real, r2: real, c2: real, low: real, high: real)
    requires Between(r1, c1, low, high) && Between(r2, c2, low, high)
    ensures Between(r1 + r2, c1 + c2, low, high)
  {
  }

  lemma {:induction false} TotalsBetween(c: Conversions, llm: map<string, Object>, rows: seq<UnitRow>, totals: Totals,
                                         low: real, high: real)
    requires Accumulate(c, llm, rows, totals).Success?
    requires Between(totals.effective, SumCogs(totals), low, high)
    requires forall i | 0 <= i < |rows| :: Between(rows[i].effective, Cogs(rows[i]), low, high)
    ensures var all := Accumulate(c, llm, rows, totals).value;
            Between(all.effective, SumCogs(all), low, high)
    decreases rows
  {
    if rows != [] {
      var worst := WorstP95(c, llm, rows[0], totals.worstP95).value;
      var next := AddRow(totals, rows[0], worst);
      BetweenAdds(totals.effective, SumCogs(totals), rows[0].effective, Cogs(rows[0]), low, high);
      assert SumCogs(next) == SumCogs(totals) + Cogs(rows[0]);
      assert forall i | 0 <= i < |rows| - 1 :: rows[1..][i] == rows[i + 1];
      TotalsBetween(c, llm, rows[1..], next, low, high);
    }
  }

  function CostRate(row: UnitRow): real
    requires row.effective > 0.0
  {
    Cogs(row) / row.effective
  }

  lemma MarginOfRate(revenue: real, cogs: real, rate: real)
    requires revenue > 0.0
    ensures cogs <= revenue * rate ==> (1.0 - rate) * 100.0 <= SafeMargin(revenue, cogs)
    ensures revenue * rate <= cogs ==> SafeMargin(revenue, cogs) <= (1.0 - rate) * 100.0
  {
    var part := (revenue - cogs) / revenue;
    assert part * revenue == revenue - cogs;
    CompareQuotient(part, 1.0 - rate, revenue);
    assert (1.0 - rate) * revenue == revenue - revenue * rate;
  }

  lemma CompareQuotient(a: real, b: real, s: real)
    requires s > 0.0
    ensures a * s <= b * s <==> a <= b
  {
    if a <= b {
      ProductNonNegative(b - a, s);
      assert (b - a) * s == b * s - a * s;
    } else {
      assert (a - b) * s > 0.0;
      assert (a - b) * s == a * s - b * s;
    }
  }

  lemma RateBetween(row: UnitRow, low: real, high: real)
    requires row.effective > 0.0 && low <= CostRate(row) <= high
    ensures Between(row.effective, Cogs(row), low, high)
  {
    var rate := CostRate(row);
    assert rate * row.effective == Cogs(row);
    CompareQuotient(low, rate, row.effective);
    CompareQuotient(rate, high, row.effective);
  }

  /** The rows with the least and the greatest share of costs. */
  lemma {:induction false} ExtremeRates(rows: seq<UnitRow>) returns (least: nat, greatest: nat)
    requires rows != [] && forall i | 0 <= i < |rows| :: rows[i].effective > 0.0
    ensures least < |rows| && greatest < |rows|
    ensures forall i | 0 <= i < |rows| :: CostRate(rows[least]) <= CostRate(rows[i]) <= CostRate(rows[greatest])
  {
    var last := |rows| - 1;
    if last == 0 {
      least, greatest := 0, 0;
    } else {
      var front := rows[..last];
      assert forall i | 0 <= i < last :: front[i] == rows[i];
      least, greatest := ExtremeRates(front);
      least := if CostRate(rows[last]) < CostRate(rows[least]) then last else least;
      greatest := if CostRate(rows[last]) > CostRate(rows[greatest]) then last else greatest;
    }
  }

  lemma {:induction false} EffectivePositive(c: Conversions, llm: map<string, Object>, rows: seq<UnitRow>,
                                             totals: Totals)
    requires Accumulate(c, llm, rows, totals).Success? && 0.0 <= totals.effective
    requires forall i | 0 <= i < |rows| :: rows[i].effective > 0.0
    ensures var all := Accumulate(c, llm, rows, totals).value;
            totals.effective <= all.effective && (rows != [] ==> all.effective > 0.0)
    decreases rows
  {
    if rows != [] {
      var worst := WorstP95(c, llm, rows[0], totals.worstP95).value;
      assert forall i | 0 <= i < |rows| - 1 :: rows[1..][i] == rows[i + 1];
      EffectivePositive(c, llm, rows[1..], AddRow(totals, rows[0], worst));
    }
  }

  lemma MarginBetweenRates(revenue: real, cogs: real, cheap: UnitRow, dear: UnitRow)
    requires revenue > 0.0 && cheap.effective > 0.0 && dear.effective > 0.0
    requires Between(revenue, cogs, CostRate(cheap), CostRate(dear))
    ensures SafeMargin(dear.effective, Cogs(dear)) <= SafeMargin(revenue, cogs)
    ensures SafeMargin(revenue, cogs) <= SafeMargin(cheap.effective, Cogs(cheap))
  {
    var l, h := CostRate(cheap), CostRate(dear);
    MarginOfRate(revenue, cogs, l);
    MarginOfRate(revenue, cogs, h);
    assert cheap.effective * l == Cogs(cheap) && dear.effective * h == Cogs(dear);
    MarginOfRate(cheap.effective, Cogs(cheap), l);
    MarginOfRate(dear.effective, Cogs(dear), h);
  }

  lemma AllBetween(c: Conversions, llm: map<string, Object>, rows: seq<UnitRow>, low: real, high: real)
    requires Accumulate(c, llm, rows, ZERO_TOTALS).Success?
    requires forall i | 0 <= i < |rows| :: Between(rows[i].effective, Cogs(rows[i]), low, high)
    ensures var totals := Accumulate(c, llm, rows, ZERO_TOTALS).value;
            Between(totals.effective, SumCogs(totals), low, high)
  {
    TotalsBetween(c, llm, rows, ZERO_TOTALS, low, high);
  }

  lemma RatesBetween(rows: seq<UnitRow>, low: real, high: real)
    requires forall i | 0 <= i < |rows| :: rows[i].effective > 0.0 && low <= CostRate(rows[i]) <= high
    ensures forall i | 0 <= i < |rows| :: Between(rows[i].effective, Cogs(rows[i]), low, high)
  {
    forall i | 0 <= i < |rows| ensures Between(rows[i].effective, Cogs(rows[i]), low, high) {
      RateBetween(rows[i], low, high);
    }
  }

  /** Before rounding, the margin of the totals lies between those of two of the tiers. */
  lemma TotalMarginBetween(c: Conversions, llm: map<string, Object>, rows: seq<UnitRow>)
    returns (cheap: UnitRow, dear: UnitRow)
    requires Accumulate(c, llm, rows, ZERO_TOTALS).Success?
    requires rows != [] && forall i | 0 <= i < |rows| :: rows[i].effective > 0.0
    ensures cheap in rows && dear in rows
    ensures var totals := Accumulate(c, llm, rows, ZERO_TOTALS).value;
            SafeMargin(dear.effective, Cogs(dear)) <= SafeMargin(totals.effective, SumCogs(totals))
            <= SafeMargin(cheap.effective, Cogs(cheap))
  {
    var totals := Accumulate(c, llm, rows, ZERO_TOTALS).value;
    var least, greatest := ExtremeRates(rows);
    cheap, dear := rows[least], rows[greatest];
    var l, h := CostRate(cheap), CostRate(dear);
    RatesBetween(rows, l, h);
    AllBetween(c, llm, rows, l, h);
    EffectivePositive(c, llm, rows, ZERO_TOTALS);
    MarginBetweenRates(totals.effective, SumCogs(totals), cheap, dear);
  }

  /** When every tier earns something, the published blended margin lies between any bounds the
      published tier margins keep to, so between the least and the greatest of them. */
  lemma BlendedBetweenTiers(c: Conversions, llm: map<string, Object>, rows: seq<UnitRow>, signals: Signals,
                            multiplier: real, low: real, high: real)
    requires Accumulate(c, llm, rows, ZERO_TOTALS).Success?
    requires rows != [] && forall i | 0 <= i < |rows| :: RowOk(rows[i]) && rows[i].effective > 0.0
    requires forall i | 0 <= i < |rows| :: low <= rows[i].margin <= high
    ensures low <= MetricsOf(Accumulate(c, llm, rows, ZERO_TOTALS).value, signals, multiplier).blended <= high
  {
    var totals := Accumulate(c, llm, rows, ZERO_TOTALS).value;
    var cheap, dear := TotalMarginBetween(c, llm, rows);
    var blended := SafeMargin(totals.effective, SumCogs(totals));
    RoundMonotone(SafeMargin(dear.effective, Cogs(dear)), blended, Two);
    RoundMonotone(blended, SafeMargin(cheap.effective, Cogs(cheap)), Two);
  }
}
