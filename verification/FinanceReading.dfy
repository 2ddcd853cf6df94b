/** The packet program in terms of the JSON it reads: which number under which key makes which published
    number, without the program's own intermediate steps. */
module FinanceReading {
  import opened FinanceCommon
  import opened FinanceEngine
  import opened FinancePacket
  import opened JsonValue
  import opened Rounding
  import opened Text

  // ------------------------------------------------------------------ reading

  /** `str(j or "").strip()` */
  function TextOf(c: Conversions, j: Json): string {
    match j
    case JStr(s) => Strip(s)
    case other => if Truthy(other) then Strip(c.show(other)) else ""
  }

  function Items(fields: Object, key: string): seq<Json> {
    if key in fields && fields[key].JList? then fields[key].items else []
  }

  /** An item of a list that is about the tier. */
  predicate IsFor(c: Conversions, item: Json, tier: string) {
    && item.JObj? && "tier" in item.fields
    && TextOf(c, item.fields["tier"]) != "" && Lower(TextOf(c, item.fields["tier"])) == tier
  }

  /** The fields of the item about the tier; none at all when there is no such item. */
  predicate RowIs(c: Conversions, items: seq<Json>, tier: string, row: Object) {
    if exists i | 0 <= i < |items| :: IsFor(c, items[i], tier)
    then exists i | 0 <= i < |items| :: IsFor(c, items[i], tier) && items[i].fields == row
    else row == map[]
  }

  /** The number under a key, or the default when the key is missing. */
  predicate NumberIs(c: Conversions, fields: Object, key: string, default: real, x: real) {
    if key in fields then c.toFloat(fields[key]) == Some(x) else x == default
  }

  predicate CountIs(c: Conversions, fields: Object, key: string, n: int) {
    if key in fields then c.toInt(fields[key]) == Some(n) else n == 0
  }

  /** The p95 cost of a tenant of the tier; zero without an object of percentiles. */
  ghost predicate TenantCost(c: Conversions, telemetry: Object, tier: string, x: real) {
    exists row: Object | RowIs(c, Items(telemetry, "tier_llm_usage"), tier, row) ::
      var percentiles := Field(row, "tenant_monthly_cost_percentiles_usd");
      if percentiles.JObj? then NumberIs(c, percentiles.fields, "p95", 0.0, x) else x == 0.0
  }

  ghost predicate Subscribed(c: Conversions, telemetry: Object, tier: string, active: int, dunning: int) {
    exists row: Object | RowIs(c, Items(telemetry, "tier_subscription_snapshot"), tier, row) ::
      CountIs(c, row, "active_subscriptions", active) && CountIs(c, row, "dunning_events", dunning)
  }

  ghost predicate ModelCost(c: Conversions, telemetry: Object, tier: string, cost: real) {
    exists row: Object | RowIs(c, Items(telemetry, "tier_llm_usage"), tier, row) ::
      NumberIs(c, row, "total_cost_usd", 0.0, cost)
  }

  predicate PricedAt(c: Conversions, telemetry: Object, tier: string, price: real, factor: real) {
    && "pricing_reference" in telemetry && telemetry["pricing_reference"].JObj?
    && var pricing := telemetry["pricing_reference"].fields;
    && tier in pricing && pricing[tier].JObj?
    && c.toFloat(Field(pricing[tier].fields, "monthly_price_usd")) == Some(price)
    && c.toFloat(Field(pricing[tier].fields, "annual_monthly_factor")) == Some(factor)
  }

  /** What the telemetry says about a tier. */
  ghost predicate Reads(c: Conversions, telemetry: Object, tier: string, r: TierInputs) {
    && PricedAt(c, telemetry, tier, r.price, r.factor)
    && Subscribed(c, telemetry, tier, r.active, r.dunning)
    && ModelCost(c, telemetry, tier, r.llmCost)
  }

  lemma TierNameIff(c: Conversions, item: Json, field: string, tier: string)
    ensures TierName(c, item, field) == Success(tier) <==> IsFor(c, item, tier)
  {
  }

  lemma ItemsOfTier(c: Conversions, items: seq<Json>, field: string, m: map<string, Object>, tier: string)
    requires IndexRows(c, items, field, map[]) == Success(m)
    ensures forall i | 0 <= i < |items| && IsFor(c, items[i], tier) :: tier in m && items[i].fields == m[tier]
    ensures tier in m ==> exists i | 0 <= i < |items| :: IsFor(c, items[i], tier)
  {
    IndexedExactly(c, items, field);
    forall i | 0 <= i < |items| && IsFor(c, items[i], tier) ensures tier in m && items[i].fields == m[tier] {
      TierNameIff(c, items[i], field, tier);
    }
    if tier in m {
      assert HasRow(c, items, field, tier);
      var i :| 0 <= i < |items| && TierName(c, items[i], field) == Success(tier);
      TierNameIff(c, items[i], field, tier);
    }
  }

  /** The index finds the row of a tier. */
  lemma IndexFinds(c: Conversions, items: seq<Json>, field: string, m: map<string, Object>, tier: string)
    requires IndexRows(c, items, field, map[]) == Success(m)
    ensures forall row :: RowIs(c, items, tier, row) <==> row == ObjectAt(m, tier)
  {
    ItemsOfTier(c, items, field, m, tier);
  }

  lemma NumberParsed(c: Conversions, fields: Object, key: string, field: string, x: real)
    requires Lawful(c) && ParseFloat(c, GetOr(fields, key, JReal(0.0)), field, Some(0.0), None) == Success(x)
    ensures NumberIs(c, fields, key, 0.0, x)
  {
  }

  lemma CountParsed(c: Conversions, fields: Object, key: string, field: string, n: int)
    requires Lawful(c) && ParseInt(c, GetOr(fields, key, JInt(0)), field, Some(0)) == Success(n)
    ensures CountIs(c, fields, key, n)
  {
  }

  lemma SubscriptionsRead(c: Conversions, telemetry: Object, m: map<string, Object>, tier: string, active: int,
                          dunning: int)
    requires Lawful(c)
    requires IndexRows(c, Items(telemetry, "tier_subscription_snapshot"), "tier_subscription_snapshot", map[]) ==
             Success(m)
    requires ParseInt(c, GetOr(ObjectAt(m, tier), "active_subscriptions", JInt(0)), "active_subscriptions", Some(0))
             == Success(active)
    requires ParseInt(c, GetOr(ObjectAt(m, tier), "dunning_events", JInt(0)), "dunning_events", Some(0))
             == Success(dunning)
    ensures Subscribed(c, telemetry, tier, active, dunning)
  {
    IndexFinds(c, Items(telemetry, "tier_subscription_snapshot"), "tier_subscription_snapshot", m, tier);
    CountParsed(c, ObjectAt(m, tier), "active_subscriptions", "active_subscriptions", active);
    CountParsed(c, ObjectAt(m, tier), "dunning_events", "dunning_events", dunning);
  }

  lemma CostsRead(c: Conversions, telemetry: Object, m: map<string, Object>, tier: string, cost: real)
    requires Lawful(c)
    requires IndexRows(c, Items(telemetry, "tier_llm_usage"), "tier_llm_usage", map[]) == Success(m)
    requires ParseFloat(c, GetOr(ObjectAt(m, tier), "total_cost_usd", JReal(0.0)), "total_cost_usd", Some(0.0), None)
             == Success(cost)
    ensures ModelCost(c, telemetry, tier, cost)
  {
    IndexFinds(c, Items(telemetry, "tier_llm_usage"), "tier_llm_usage", m, tier);
    NumberParsed(c, ObjectAt(m, tier), "total_cost_usd", "total_cost_usd", cost);
  }

  lemma InputsRead(c: Conversions, telemetry: Object, tier: string)
    requires Lawful(c) && TelemetryInputs(c, telemetry, tier).Success?
    ensures Reads(c, telemetry, tier, TelemetryInputs(c, telemetry, tier).value)
  {
    var r := TelemetryInputs(c, telemetry, tier).value;
    var subscriptions := IndexRows(c, Items(telemetry, "tier_subscription_snapshot"), "tier_subscription_snapshot",
                                   map[]).value;
    var llm := IndexRows(c, Items(telemetry, "tier_llm_usage"), "tier_llm_usage", map[]).value;
    SubscriptionsRead(c, telemetry, subscriptions, tier, r.active, r.dunning);
    CostsRead(c, telemetry, llm, tier, r.llmCost);
  }

  // --------------------------------------------------------------------- rows

  /** What is left of the revenue after the costs, in percent; without revenue all or nothing. */
  function MarginPercent(revenue: real, costs: real): real {
    if revenue > 0.0 then 100.0 - 100.0 * costs / revenue else if costs > 0.0 then 0.0 else 100.0
  }

  /** What a tier earns and costs before rounding. */
  datatype Amounts = Amounts(gross: real, paid: real, infra: real, support: real)

  /** Every subscription pays the price, those with annual billing only the factor of it. */
  function AmountsOf(r: TierInputs, annual: real, infraPercent: real, perSubscription: real, perDunning: real)
    : Amounts
  {
    var gross := r.active as real * r.price;
    var paid := gross * (1.0 - annual) + gross * annual * r.factor;
    Amounts(gross, paid, paid * infraPercent / 100.0,
            perSubscription * r.active as real + perDunning * r.dunning as real)
  }

  /** Every amount is in cents, and the margin is that of the rounded amounts. */
  predicate MadeOf(row: UnitRow, tier: string, a: Amounts, r: TierInputs) {
    && row.tier == tier && row.active == r.active && row.dunning == r.dunning
    && row.mrr == Round(a.gross, Two) && row.effective == Round(a.paid, Two)
    && row.llmCogs == Round(r.llmCost, Two) && row.infraCogs == Round(a.infra, Two)
    && row.supportCogs == Round(a.support, Two)
    && row.margin == Round(MarginPercent(row.effective, row.llmCogs + row.infraCogs + row.supportCogs), Two)
  }

  /** A published row. */
  predicate RowSays(row: UnitRow, tier: string, r: TierInputs, costs: CostModel)
    requires HasTier(costs, tier)
  {
    MadeOf(row, tier,
           AmountsOf(r, costs.annualMix[tier], costs.infraPercent[tier], costs.supportPerSubscription[tier],
                     costs.supportPerDunning), r)
  }

  lemma MarginForms(revenue: real, costs: real)
    ensures SafeMargin(revenue, costs) == MarginPercent(revenue, costs)
  {
    if revenue > 0.0 {
      var q := costs / revenue;
      assert q * revenue == costs;
      assert (1.0 - q) * revenue == revenue - costs;
      QuotientIs(revenue - costs, revenue, 1.0 - q);
      QuotientIs(100.0 * costs, revenue, 100.0 * q);
    }
  }

  lemma QuotientIs(a: real, b: real, q: real)
    requires b != 0.0 && a == q * b
    ensures a / b == q
  {
  }

  lemma PaidForms(gross: real, annual: real, factor: real)
    ensures gross * AnnualFactor(annual, factor) == gross * (1.0 - annual) + gross * annual * factor
  {
    var part := annual * (1.0 - factor);
    assert part == annual - annual * factor;
    assert gross * (1.0 - part) == gross - gross * part;
    assert gross * part == gross * annual - gross * (annual * factor);
    assert gross * (annual * factor) == gross * annual * factor;
  }

  lemma PercentForms(amount: real, percent: real)
    ensures InfraCogs(amount, percent) == amount * percent / 100.0
  {
  }

  lemma GrossForms(r: TierInputs)
    ensures GrossMrr(r) == r.active as real * r.price
  {
  }

  lemma SupportForms(r: TierInputs, each: real, dunning: real)
    ensures SupportCogs(r, each, dunning) == each * r.active as real + dunning * r.dunning as real
  {
  }

  lemma AmountsForms(r: TierInputs, annual: real, infraPercent: real, each: real, dunning: real)
    ensures AmountsOf(r, annual, infraPercent, each, dunning) ==
            Amounts(GrossMrr(r), EffectiveMrr(r, annual), InfraCogs(EffectiveMrr(r, annual), infraPercent),
                    SupportCogs(r, each, dunning))
  {
    var gross := GrossMrr(r);
    GrossForms(r);
    PaidForms(gross, annual, r.factor);
    PercentForms(gross * (1.0 - annual) + gross * annual * r.factor, infraPercent);
    SupportForms(r, each, dunning);
  }

  lemma RoundedSays(tier: string, a: Amounts, r: TierInputs)
    ensures MadeOf(RoundedRow(tier, a.gross, a.paid, r.llmCost, a.infra, a.support, r.active, r.dunning), tier, a, r)
  {
    var row := RoundedRow(tier, a.gross, a.paid, r.llmCost, a.infra, a.support, r.active, r.dunning);
    MarginForms(row.effective, row.llmCogs + row.infraCogs + row.supportCogs);
  }

  lemma RowIsSaid(tier: string, r: TierInputs, costs: CostModel)
    requires HasTier(costs, tier)
    ensures RowSays(UnitRowOf(tier, r, costs), tier, r, costs)
  {
    var annual, percent := costs.annualMix[tier], costs.infraPercent[tier];
    var each, dunning := costs.supportPerSubscription[tier], costs.supportPerDunning;
    AmountsForms(r, annual, percent, each, dunning);
    RoundedSays(tier, AmountsOf(r, annual, percent, each, dunning), r);
  }

  const TIER_NAMES := ["starter", "growth", "pro", "enterprise"]

  /** The unit economics are one row for each of the four tiers, made of the numbers the telemetry holds
      about it. */
  lemma RowsRead(c: Conversions, telemetry: Object, costs: CostModel, i: nat) returns (r: TierInputs)
    requires Lawful(c) && CostsInRange(costs) && UnitEconomics(c, telemetry, costs).Success? && i < 4
    ensures var rows := UnitEconomics(c, telemetry, costs).value;
            && |rows| == 4 && HasTier(costs, TIER_NAMES[i])
            && Reads(c, telemetry, TIER_NAMES[i], r) && RowSays(rows[i], TIER_NAMES[i], r, costs)
  {
    EconomicsRows(c, telemetry, costs);
    var rows := UnitEconomics(c, telemetry, costs).value;
    assert IsTierRow(c, telemetry, costs, TRACKED_TIERS[i], rows[i]);
    r := TelemetryInputs(c, telemetry, TIER_NAMES[i]).value;
    InputsRead(c, telemetry, TIER_NAMES[i]);
    RowIsSaid(TIER_NAMES[i], r, costs);
  }

  // ---------------------------------------------------------- the worst tenant

  /** A tier with paying tenants whose p95 tenant costs this share of what a tenant pays, in percent. */
  ghost predicate CostsShare(c: Conversions, telemetry: Object, row: UnitRow, share: real) {
    && row.active > 0 && row.effective > 0.0
    && exists x :: TenantCost(c, telemetry, row.tier, x)
                   && share == x / (row.effective / row.active as real) * 100.0
  }

  lemma TenantCostRead(c: Conversions, telemetry: Object, m: map<string, Object>, tier: string)
    requires Lawful(c) && IndexRows(c, Items(telemetry, "tier_llm_usage"), "tier_llm_usage", map[]) == Success(m)
    requires P95Cost(c, m, tier).Success?
    ensures forall x :: TenantCost(c, telemetry, tier, x) <==> x == P95Cost(c, m, tier).value
  {
    IndexFinds(c, Items(telemetry, "tier_llm_usage"), "tier_llm_usage", m, tier);
    var row := ObjectAt(m, tier);
    var percentiles := Field(row, "tenant_monthly_cost_percentiles_usd");
    var x := P95Cost(c, m, tier).value;
    assert RowIs(c, Items(telemetry, "tier_llm_usage"), tier, row);
    if percentiles.JObj? {
      NumberParsed(c, percentiles.fields, "p95", "p95", x);
    }
  }

  lemma ShareIff(c: Conversions, telemetry: Object, m: map<string, Object>, row: UnitRow)
    requires Lawful(c) && IndexRows(c, Items(telemetry, "tier_llm_usage"), "tier_llm_usage", map[]) == Success(m)
    requires P95Cost(c, m, row.tier).Success?
    ensures forall share :: CostsShare(c, telemetry, row, share) <==> HasShare(c, m, row, share)
    ensures row.active > 0 && row.effective > 0.0 ==> exists share :: CostsShare(c, telemetry, row, share)
  {
    TenantCostRead(c, telemetry, m, row.tier);
    var x := P95Cost(c, m, row.tier).value;
    assert TenantCost(c, telemetry, row.tier, x);
    if row.active > 0 && row.effective > 0.0 {
      assert HasShare(c, m, row, x / (row.effective / row.active as real) * 100.0);
    }
  }

  lemma {:induction false} CostsKnown(c: Conversions, llm: map<string, Object>, rows: seq<UnitRow>, totals: Totals,
                                      i: nat)
    requires Accumulate(c, llm, rows, totals).Success? && i < |rows|
    ensures P95Cost(c, llm, rows[i].tier).Success?
    decreases rows
  {
    var worst := WorstP95(c, llm, rows[0], totals.worstP95).value;
    if i > 0 {
      CostsKnown(c, llm, rows[1..], AddRow(totals, rows[0], worst), i - 1);
    }
  }

  /** The number is the greatest share of any tier, and zero when no tier has paying tenants. */
  ghost predicate GreatestShare(c: Conversions, telemetry: Object, rows: seq<UnitRow>, worst: real) {
    && 0.0 <= worst
    && (forall i | 0 <= i < |rows| && rows[i].active > 0 && rows[i].effective > 0.0 ::
          exists share :: CostsShare(c, telemetry, rows[i], share))
    && (forall i, share | 0 <= i < |rows| && CostsShare(c, telemetry, rows[i], share) :: share <= worst)
    && (worst == 0.0 || exists i | 0 <= i < |rows| :: CostsShare(c, telemetry, rows[i], worst))
  }

  /** The published p95 metric is the greatest share that the p95 tenant of any tier costs, rounded. */
  lemma P95Published(c: Conversions, rows: seq<UnitRow>, telemetry: Object, signals: Signals, multiplier: real)
    returns (worst: real)
    requires Lawful(c) && Measure(c, rows, telemetry, signals, multiplier).Success?
    ensures GreatestShare(c, telemetry, rows, worst)
    ensures Measure(c, rows, telemetry, signals, multiplier).value.0.p95 == Round(worst, Two)
  {
    var llm := IndexRows(c, Items(telemetry, "tier_llm_usage"), "tier_llm_usage", map[]).value;
    worst := Accumulate(c, llm, rows, ZERO_TOTALS).value.worstP95;
    WorstIsGreatest(c, llm, rows, ZERO_TOTALS);
    forall i | 0 <= i < |rows|
      ensures forall share :: CostsShare(c, telemetry, rows[i], share) <==> HasShare(c, llm, rows[i], share)
      ensures rows[i].active > 0 && rows[i].effective > 0.0 ==> exists share :: CostsShare(c, telemetry, rows[i], share)
    {
      CostsKnown(c, llm, rows, ZERO_TOTALS, i);
      ShareIff(c, telemetry, llm, rows[i]);
    }
  }

  // ------------------------------------------------------------------- metrics

  function Mrr(row: UnitRow): real {
    row.mrr
  }

  function Effective(row: UnitRow): real {
    row.effective
  }

  function Llm(row: UnitRow): real {
    row.llmCogs
  }

  function Infra(row: UnitRow): real {
    row.infraCogs
  }

  function Support(row: UnitRow): real {
    row.supportCogs
  }

  datatype Columns = Columns(mrr: real, paid: real, llm: real, infra: real, support: real)

  function ColumnsOf(rows: seq<UnitRow>): Columns {
    Columns(SumOver(rows, Mrr), SumOver(rows, Effective), SumOver(rows, Llm), SumOver(rows, Infra),
            SumOver(rows, Support))
  }

  predicate BlendedSays(m: Metrics, k: Columns) {
    m.blended == Round(MarginPercent(k.paid, k.llm + k.infra + k.support), Two)
  }

  predicate StressSays(m: Metrics, k: Columns, multiplier: real) {
    m.stress == Round(MarginPercent(k.paid, k.llm + k.support + multiplier * k.infra), Two)
  }

  predicate DiscountSays(m: Metrics, k: Columns) {
    m.discount == Round(if k.mrr > 0.0 then 100.0 - 100.0 * k.paid / k.mrr else 0.0, Two)
  }

  predicate SignalsSay(m: Metrics, signals: Signals) {
    && m.growthToPro == Round(signals.growthToPro, Four)
    && m.proToEnterprise == Round(signals.proToEnterprise, Four)
  }

  /** The published metrics, from the sums of the columns. */
  predicate MetricsSay(m: Metrics, rows: seq<UnitRow>, signals: Signals, multiplier: real) {
    var k := ColumnsOf(rows);
    BlendedSays(m, k) && StressSays(m, k, multiplier) && DiscountSays(m, k) && SignalsSay(m, signals)
  }

  predicate TotalsSay(totals: Totals, rows: seq<UnitRow>) {
    var k := ColumnsOf(rows);
    && totals.mrr == Round(k.mrr, Two) && totals.effective == Round(k.paid, Two)
    && totals.llm == Round(k.llm, Two) && totals.infra == Round(k.infra, Two) && totals.support == Round(k.support, Two)
  }

  lemma {:induction false} ColumnsAddUp(c: Conversions, llm: map<string, Object>, rows: seq<UnitRow>, totals: Totals)
    requires Accumulate(c, llm, rows, totals).Success?
    ensures var all := Accumulate(c, llm, rows, totals).value;
            && all.mrr == totals.mrr + SumOver(rows, Mrr)
            && all.effective == totals.effective + SumOver(rows, Effective)
            && all.llm == totals.llm + SumOver(rows, Llm)
            && all.infra == totals.infra + SumOver(rows, Infra)
            && all.support == totals.support + SumOver(rows, Support)
    decreases rows
  {
    if rows != [] {
      var worst := WorstP95(c, llm, rows[0], totals.worstP95).value;
      ColumnsAddUp(c, llm, rows[1..], AddRow(totals, rows[0], worst));
    }
  }

  function TotalsWith(k: Columns, worst: real): Totals {
    Totals(k.mrr, k.paid, k.llm, k.infra, k.support, worst)
  }

  lemma DiscountForms(k: Columns, worst: real, signals: Signals, multiplier: real)
    ensures DiscountSays(MetricsOf(TotalsWith(k, worst), signals, multiplier), k)
  {
    MarginForms(k.mrr, k.paid);
    assert DiscountImpact(TotalsWith(k, worst)) == if k.mrr > 0.0 then 100.0 - 100.0 * k.paid / k.mrr else 0.0;
  }

  lemma BlendedForms(k: Columns, worst: real, signals: Signals, multiplier: real)
    ensures BlendedSays(MetricsOf(TotalsWith(k, worst), signals, multiplier), k)
  {
    MarginForms(k.paid, k.llm + k.infra + k.support);
    assert SumCogs(TotalsWith(k, worst)) == k.llm + k.infra + k.support;
  }

  lemma StressedCosts(k: Columns, worst: real, multiplier: real)
    ensures TotalCogs(TotalsWith(k, worst), multiplier) == k.llm + k.support + multiplier * k.infra
  {
  }

  lemma StressForms(k: Columns, worst: real, signals: Signals, multiplier: real)
    ensures StressSays(MetricsOf(TotalsWith(k, worst), signals, multiplier), k, multiplier)
  {
    StressedCosts(k, worst, multiplier);
    MarginForms(k.paid, TotalCogs(TotalsWith(k, worst), multiplier));
  }

  lemma SignalsForms(totals: Totals, signals: Signals, multiplier: real)
    ensures SignalsSay(MetricsOf(totals, signals, multiplier), signals)
  {
  }

  lemma AccumulatedColumns(c: Conversions, llm: map<string, Object>, rows: seq<UnitRow>)
    requires Accumulate(c, llm, rows, ZERO_TOTALS).Success?
    ensures var totals := Accumulate(c, llm, rows, ZERO_TOTALS).value;
            totals == TotalsWith(ColumnsOf(rows), totals.worstP95)
  {
    ColumnsAddUp(c, llm, rows, ZERO_TOTALS);
  }

  /** What is measured, as sums over the rows. */
  lemma MeasuredSays(c: Conversions, rows: seq<UnitRow>, telemetry: Object, signals: Signals, multiplier: real)
    requires Measure(c, rows, telemetry, signals, multiplier).Success?
    ensures var r := Measure(c, rows, telemetry, signals, multiplier).value;
            MetricsSay(r.0, rows, signals, multiplier) && TotalsSay(r.1, rows)
  {
    var llm, totals := MeasuredFrom(c, rows, telemetry, signals, multiplier);
    var k := ColumnsOf(rows);
    AccumulatedColumns(c, llm, rows);
    BlendedForms(k, totals.worstP95, signals, multiplier);
    StressForms(k, totals.worstP95, signals, multiplier);
    DiscountForms(k, totals.worstP95, signals, multiplier);
    SignalsForms(totals, signals, multiplier);
  }

  // --------------------------------------------------------------------- gates

  /** The five gates, on the last closes and the metrics. */
  predicate GatesSay(gates: Gates, m: Metrics, t: Thresholds, history: seq<Close>) {
    && 1 <= t.requiredCloses <= |history|
    && (gates.margin <==>
          && t.minBlended <= m.blended
          && forall close | close in history[|history| - t.requiredCloses..] :: t.minBlended <= close.blended)
    && (gates.llm <==> m.p95 <= t.maxP95)
    && (gates.discount <==> m.discount <= t.maxDiscount)
    && (gates.expansion <==> t.minGrowthToPro <= m.growthToPro && t.minProToEnterprise <= m.proToEnterprise)
    && (gates.stress <==> t.minStress <= m.stress)
  }

  /** The margin gate looks at the last closes, as many as are required, whatever came before; with fewer
      closes than that there are no gates. */
  lemma GatesOnLastCloses(m: Metrics, t: Thresholds, older: seq<Close>, recent: seq<Close>)
    requires 1 <= t.requiredCloses
    ensures |recent| < t.requiredCloses && older == [] ==> GateResults(m, t, older + recent).Failure?
    ensures |recent| == t.requiredCloses ==>
              var r := GateResults(m, t, older + recent);
              && r.Success?
              && (r.value.margin <==> t.minBlended <= m.blended
                                      && forall close | close in recent :: t.minBlended <= close.blended)
              && GatesSay(r.value, m, t, older + recent)
  {
    if |recent| == t.requiredCloses {
      assert (older + recent)[|older + recent| - t.requiredCloses..] == recent;
    }
  }
}
