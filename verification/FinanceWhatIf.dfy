/** The what-if scenarios of a packet, from the multipliers in its assumptions. */
module FinanceWhatIf {
  import opened FinanceCommon
  import opened FinanceEngine
  import opened FinancePacket
  import opened FinancePublished
  import opened FinanceReading
  import opened FinanceScenarios
  import opened JsonValue
  import opened Rounding
  import opened Text

  /** What a tier earns in a scenario: its revenue moves with both multipliers. */
  function TierRevenue(row: UnitRow, annual: real, factor: real, subscriptions: real, prices: real): real {
    row.mrr * subscriptions * prices * (1.0 - annual + annual * factor)
  }

  /** What a tier costs in a scenario: the model and support costs move with the subscriptions, the
      infrastructure costs with the revenue. */
  function TierCosts(row: UnitRow, revenue: real, subscriptions: real): real {
    (if row.active > 0 then (row.llmCogs + row.supportCogs) * subscriptions else 0.0)
    + row.infraCogs * revenue / (if row.effective > 1.0 then row.effective else 1.0)
  }

  /** A row whose revenue is zero when nobody subscribes. */
  predicate Priced(row: UnitRow) {
    0 <= row.active && (row.active == 0 ==> row.mrr == 0.0)
  }

  lemma FactorForms(annual: real, factor: real)
    ensures AnnualFactor(annual, factor) == 1.0 - annual + annual * factor
  {
  }

  lemma Regrouped(n: real, each: real, s: real, p: real, f: real)
    ensures n * s * (each * p) * f == each * n * s * p * f
  {
  }

  lemma RevenueForms(row: UnitRow, annual: real, factor: real, s: real, p: real)
    requires Priced(row)
    ensures ScenarioEffective(row, AnnualFactor(annual, factor), s, p) == TierRevenue(row, annual, factor, s, p)
  {
    FactorForms(annual, factor);
    RevenueRegrouped(row, AnnualFactor(annual, factor), s, p);
  }

  lemma RevenueRegrouped(row: UnitRow, f: real, s: real, p: real)
    requires Priced(row)
    ensures ScenarioEffective(row, f, s, p) == row.mrr * s * p * f
  {
    var n := row.active as real;
    var each := PerSubscription(row.mrr, row.active);
    if row.active > 0 {
      assert Max(n, 1.0) == n && each * n == row.mrr;
    }
    Regrouped(n, each, s, p, f);
  }

  lemma PartOfCost(amount: real, active: int, s: real)
    requires active > 0
    ensures PerSubscription(amount, active) * (active as real * s) == amount * s
  {
    var n, each := active as real, PerSubscription(amount, active);
    assert Max(n, 1.0) == n && each * n == amount;
    assert each * (n * s) == each * n * s;
  }

  lemma CostsForms(row: UnitRow, revenue: real, s: real)
    requires 0 <= row.active
    ensures ScenarioCogs(row, revenue, s) == TierCosts(row, revenue, s)
  {
    var least := Max(row.effective, 1.0);
    assert row.infraCogs / least * revenue == row.infraCogs * revenue / least;
    if row.active > 0 {
      PartOfCost(row.llmCogs, row.active, s);
      PartOfCost(row.supportCogs, row.active, s);
    }
  }

  // --------------------------------------------------------- one scenario read

  /** The tables a scenario is computed from, by tier. */
  datatype Tables = Tables(annual: map<string, real>, factors: map<string, real>, subscriptions: map<string, real>,
                           prices: map<string, real>)

  predicate HasAll(t: Tables) {
    forall tier | tier in TIER_NAMES :: tier in t.annual && tier in t.factors && tier in t.subscriptions
                                        && tier in t.prices
  }

  function RevenueOf(row: UnitRow, t: Tables, tier: string): real
    requires HasAll(t) && tier in TIER_NAMES
  {
    TierRevenue(row, t.annual[tier], t.factors[tier], t.subscriptions[tier], t.prices[tier])
  }

  function CostOf(row: UnitRow, t: Tables, tier: string): real
    requires HasAll(t) && tier in TIER_NAMES
  {
    TierCosts(row, RevenueOf(row, t, tier), t.subscriptions[tier])
  }

  /** What every tier earns and costs, in the order of the rows. */
  function Parts(rows: seq<UnitRow>, t: Tables): seq<(real, real)>
    requires HasAll(t) && |rows| == 4
  {
    seq(4, i requires 0 <= i < 4 => (RevenueOf(rows[i], t, TIER_NAMES[i]), CostOf(rows[i], t, TIER_NAMES[i])))
  }

  function Revenue(parts: seq<(real, real)>): real
    requires |parts| == 4
  {
    parts[0].0 + parts[1].0 + parts[2].0 + parts[3].0
  }

  function Costs(parts: seq<(real, real)>): real
    requires |parts| == 4
  {
    parts[0].1 + parts[1].1 + parts[2].1 + parts[3].1
  }

  /** A published scenario, by the multipliers that its item in the assumptions holds. */
  ghost predicate ScenarioSays(c: Conversions, item: Json, rows: seq<UnitRow>, annual: map<string, real>,
                               factors: map<string, real>, row: ScenarioRow)
    requires |rows| == 4
  {
    && item.JObj? && row.name == TextOf(c, Field(item.fields, "name")) != ""
    && exists s: map<string, real>, p: map<string, real> ::
         && TierNumbers(c, item.fields, "subscription_multipliers_by_tier", s)
         && TierNumbers(c, item.fields, "monthly_price_multipliers_by_tier", p)
         && Reported(rows, Tables(annual, factors, s, p), row)
  }

  predicate Reported(rows: seq<UnitRow>, t: Tables, row: ScenarioRow)
    requires |rows| == 4
  {
    && HasAll(t) && var parts := Parts(rows, t);
    && row.effective == Round(Revenue(parts), Two)
    && row.margin == Round(MarginPercent(Revenue(parts), Costs(parts)), Two)
  }

  lemma FourTiers(share: Share)
    requires AddShares(share, TRACKED_TIERS, 0.0, 0.0).Success?
    ensures forall tier | tier in TIER_NAMES :: share(tier).Success?
    ensures var r := AddShares(share, TRACKED_TIERS, 0.0, 0.0).value;
            && r.0 == share("starter").value.0 + share("growth").value.0 + share("pro").value.0
                      + share("enterprise").value.0
            && r.1 == share("starter").value.1 + share("growth").value.1 + share("pro").value.1
                      + share("enterprise").value.1
  {
    var k := TRACKED_TIERS;
    assert k[1..] == ["growth", "pro", "enterprise"] && k[1..][1..] == ["pro", "enterprise"];
    assert k[1..][1..][1..] == ["enterprise"] && k[1..][1..][1..][1..] == [];
    HeadShare(share, k, 0.0, 0.0);
    var one := share("starter").value;
    HeadShare(share, k[1..], 0.0 + one.0, 0.0 + one.1);
    var two := share("growth").value;
    HeadShare(share, ["pro", "enterprise"], 0.0 + one.0 + two.0, 0.0 + one.1 + two.1);
    var three := share("pro").value;
    HeadShare(share, ["enterprise"], 0.0 + one.0 + two.0 + three.0, 0.0 + one.1 + two.1 + three.1);
  }

  lemma HeadShare(share: Share, tiers: seq<string>, effective: real, costs: real)
    requires tiers != [] && AddShares(share, tiers, effective, costs).Success?
    ensures share(tiers[0]).Success?
    ensures AddShares(share, tiers, effective, costs) ==
            AddShares(share, tiers[1..], effective + share(tiers[0]).value.0, costs + share(tiers[0]).value.1)
  {
  }

  /** The share of a tier, by its row and the tables. */
  lemma ShareRead(c: Conversions, b: Baseline, sub: Object, price: Object, tier: string, row: UnitRow, t: Tables)
    requires TierShare(c, b, sub, price, tier).Success? && tier in TIER_NAMES && HasAll(t)
    requires b.rows[tier] == row && Priced(row) && b.mix == t.annual && b.factors == t.factors
    requires NumberAt(c, sub, tier, t.subscriptions[tier]) && NumberAt(c, price, tier, t.prices[tier])
    ensures TierShare(c, b, sub, price, tier).value == (RevenueOf(row, t, tier), CostOf(row, t, tier))
  {
    var s, p := t.subscriptions[tier], t.prices[tier];
    RevenueForms(row, t.annual[tier], t.factors[tier], s, p);
    CostsForms(row, RevenueOf(row, t, tier), s);
  }

  predicate HasNumber(c: Conversions, fields: Object, key: string) {
    c.toFloat(Field(fields, key)).Some?
  }

  function NumbersIn(c: Conversions, fields: Object): map<string, real> {
    map tier | tier in TIER_NAMES && HasNumber(c, fields, tier) :: c.toFloat(Field(fields, tier)).value
  }

  lemma MultipliersRead(c: Conversions, fields: Object, key: string)
    requires Field(fields, key).JObj?
    requires forall tier | tier in TIER_NAMES :: HasNumber(c, Field(fields, key).fields, tier)
    ensures TierNumbers(c, fields, key, NumbersIn(c, Field(fields, key).fields))
  {
  }

  lemma FourParts(share: Share, parts: seq<(real, real)>)
    requires AddShares(share, TRACKED_TIERS, 0.0, 0.0).Success?
    requires |parts| == 4 && forall i | 0 <= i < 4 :: share(TIER_NAMES[i]) == Success(parts[i])
    ensures AddShares(share, TRACKED_TIERS, 0.0, 0.0).value == (Revenue(parts), Costs(parts))
  {
    FourTiers(share);
    assert share(TIER_NAMES[0]) == Success(parts[0]) && share(TIER_NAMES[1]) == Success(parts[1]);
    assert share(TIER_NAMES[2]) == Success(parts[2]) && share(TIER_NAMES[3]) == Success(parts[3]);
  }

  lemma ShareAt(c: Conversions, b: Baseline, sub: Object, price: Object, rows: seq<UnitRow>, t: Tables, i: nat)
    requires |rows| == 4 && HasAll(t) && b.mix == t.annual && b.factors == t.factors && i < 4
    requires TIER_NAMES[i] in b.rows && b.rows[TIER_NAMES[i]] == rows[i] && Priced(rows[i])
    requires TierShare(c, b, sub, price, TIER_NAMES[i]).Success?
    requires NumberAt(c, sub, TIER_NAMES[i], t.subscriptions[TIER_NAMES[i]])
    requires NumberAt(c, price, TIER_NAMES[i], t.prices[TIER_NAMES[i]])
    ensures ShareOf(c, b, sub, price)(TIER_NAMES[i]) == Success(Parts(rows, t)[i])
  {
    ShareRead(c, b, sub, price, TIER_NAMES[i], rows[i], t);
  }

  lemma SharesRead(c: Conversions, b: Baseline, sub: Object, price: Object, rows: seq<UnitRow>, t: Tables)
    requires AddShares(ShareOf(c, b, sub, price), TRACKED_TIERS, 0.0, 0.0).Success?
    requires |rows| == 4 && HasAll(t) && b.mix == t.annual && b.factors == t.factors
    requires forall i | 0 <= i < 4 :: TIER_NAMES[i] in b.rows && b.rows[TIER_NAMES[i]] == rows[i] && Priced(rows[i])
    requires forall tier | tier in TIER_NAMES ::
               NumberAt(c, sub, tier, t.subscriptions[tier]) && NumberAt(c, price, tier, t.prices[tier])
    ensures AddShares(ShareOf(c, b, sub, price), TRACKED_TIERS, 0.0, 0.0).value ==
            (Revenue(Parts(rows, t)), Costs(Parts(rows, t)))
  {
    var share := ShareOf(c, b, sub, price);
    FourTiers(share);
    forall i: nat | i < 4 ensures share(TIER_NAMES[i]) == Success(Parts(rows, t)[i]) {
      assert share(TIER_NAMES[i]).Success?;
      ShareAt(c, b, sub, price, rows, t, i);
    }
    FourParts(share, Parts(rows, t));
  }

  lemma SharesKnown(c: Conversions, b: Baseline, sub: Object, price: Object)
    requires AddShares(ShareOf(c, b, sub, price), TRACKED_TIERS, 0.0, 0.0).Success?
    ensures forall tier | tier in TIER_NAMES :: HasNumber(c, sub, tier) && HasNumber(c, price, tier)
  {
    FourTiers(ShareOf(c, b, sub, price));
    forall tier | tier in TIER_NAMES ensures HasNumber(c, sub, tier) && HasNumber(c, price, tier) {
      assert ShareOf(c, b, sub, price)(tier).Success?;
    }
  }

  /** The rows a scenario starts from. */
  predicate StartsFrom(b: Baseline, rows: seq<UnitRow>) {
    && |rows| == 4
    && (forall i | 0 <= i < 4 :: TIER_NAMES[i] in b.rows && b.rows[TIER_NAMES[i]] == rows[i] && Priced(rows[i]))
    && (forall tier | tier in TIER_NAMES :: tier in b.mix && tier in b.factors)
  }

  lemma ScenarioParts(c: Conversions, b: Baseline, item: Json)
    requires OneScenario(c, b, item).Success?
    ensures item.JObj?
    ensures var row := OneScenario(c, b, item).value;
            var sub := Field(item.fields, "subscription_multipliers_by_tier");
            var price := Field(item.fields, "monthly_price_multipliers_by_tier");
            && row.name == TextOf(c, Field(item.fields, "name")) != "" && sub.JObj? && price.JObj?
            && var totals := AddShares(ShareOf(c, b, sub.fields, price.fields), TRACKED_TIERS, 0.0, 0.0);
            && totals.Success? && row.effective == Round(totals.value.0, Two)
            && row.margin == Round(SafeMargin(totals.value.0, totals.value.1), Two)
  {
  }

  lemma ScenarioReported(c: Conversions, b: Baseline, item: Json, rows: seq<UnitRow>, s: map<string, real>,
                         p: map<string, real>)
    requires StartsFrom(b, rows) && OneScenario(c, b, item).Success? && item.JObj?
    requires TierNumbers(c, item.fields, "subscription_multipliers_by_tier", s)
    requires TierNumbers(c, item.fields, "monthly_price_multipliers_by_tier", p)
    ensures Reported(rows, Tables(b.mix, b.factors, s, p), OneScenario(c, b, item).value)
  {
    var t := Tables(b.mix, b.factors, s, p);
    ScenarioParts(c, b, item);
    SharesRead(c, b, Field(item.fields, "subscription_multipliers_by_tier").fields,
               Field(item.fields, "monthly_price_multipliers_by_tier").fields, rows, t);
    MarginForms(Revenue(Parts(rows, t)), Costs(Parts(rows, t)));
  }

  lemma ScenarioRead(c: Conversions, b: Baseline, item: Json, rows: seq<UnitRow>)
    requires StartsFrom(b, rows) && OneScenario(c, b, item).Success?
    ensures ScenarioSays(c, item, rows, b.mix, b.factors, OneScenario(c, b, item).value)
  {
    ScenarioParts(c, b, item);
    var sub := Field(item.fields, "subscription_multipliers_by_tier").fields;
    var price := Field(item.fields, "monthly_price_multipliers_by_tier").fields;
    SharesKnown(c, b, sub, price);
    MultipliersRead(c, item.fields, "subscription_multipliers_by_tier");
    MultipliersRead(c, item.fields, "monthly_price_multipliers_by_tier");
    ScenarioReported(c, b, item, rows, NumbersIn(c, sub), NumbersIn(c, price));
  }

  /** What the loop over the items makes of them, for any way to make one. */
  function Collected(one: Json -> Result<ScenarioRow>, items: seq<Json>, output: seq<ScenarioRow>)
    : Result<seq<ScenarioRow>>
    decreases items
  {
    if items == [] then Success(output)
    else
      var row :- one(items[0]);
      Collected(one, items[1..], output + [row])
  }

  lemma {:induction false} ScenariosCollected(c: Conversions, b: Baseline, one: Json -> Result<ScenarioRow>,
                                              items: seq<Json>, output: seq<ScenarioRow>)
    requires forall item :: one(item) == OneScenario(c, b, item)
    ensures Scenarios(c, b, items, output) == Collected(one, items, output)
    decreases items
  {
    if items != [] && one(items[0]).Success? {
      ScenariosCollected(c, b, one, items[1..], output + [one(items[0]).value]);
    }
  }

  lemma {:induction false} CollectedKeeps(one: Json -> Result<ScenarioRow>, items: seq<Json>, output: seq<ScenarioRow>)
    requires Collected(one, items, output).Success?
    ensures var all := Collected(one, items, output).value; |all| == |output| + |items| && output <= all
    decreases items
  {
    if items != [] {
      CollectedKeeps(one, items[1..], output + [one(items[0]).value]);
    }
  }

  lemma {:induction false} CollectedAt(one: Json -> Result<ScenarioRow>, items: seq<Json>, output: seq<ScenarioRow>,
                                       i: nat)
    requires Collected(one, items, output).Success? && i < |items|
    ensures var all := Collected(one, items, output).value;
            |all| == |output| + |items| && one(items[i]) == Success(all[|output| + i])
    decreases items
  {
    var next := output + [one(items[0]).value];
    CollectedKeeps(one, items[1..], next);
    if i == 0 {
      assert next[|output|] == Collected(one, items, output).value[|output|];
    } else {
      CollectedAt(one, items[1..], next, i - 1);
    }
  }

  lemma ScenarioAt(c: Conversions, b: Baseline, items: seq<Json>, i: nat)
    requires Scenarios(c, b, items, []).Success? && i < |items|
    ensures var all := Scenarios(c, b, items, []).value;
            |all| == |items| && OneScenario(c, b, items[i]) == Success(all[i])
  {
    var one: Json -> Result<ScenarioRow> := item => OneScenario(c, b, item);
    ScenariosCollected(c, b, one, items, []);
    CollectedAt(one, items, [], i);
  }

  lemma ScenarioCount(c: Conversions, b: Baseline, items: seq<Json>)
    requires Scenarios(c, b, items, []).Success?
    ensures |Scenarios(c, b, items, []).value| == |items|
  {
    var one: Json -> Result<ScenarioRow> := item => OneScenario(c, b, item);
    ScenariosCollected(c, b, one, items, []);
    CollectedKeeps(one, items, []);
  }

  // ---------------------------------------------------------- in every packet

  function ScenarioItems(a: Object): seq<Json> {
    var models := Field(a, "scenario_models");
    if models.JObj? then Items(models.fields, "price_sensitivity") else []
  }

  /** The annual price factors that the telemetry holds. */
  predicate FactorsAre(c: Conversions, telemetry: Object, factors: map<string, real>) {
    && Field(telemetry, "pricing_reference").JObj?
    && var pricing := Field(telemetry, "pricing_reference").fields;
    && forall tier | tier in TIER_NAMES ::
         && tier in factors && Field(pricing, tier).JObj?
         && NumberAt(c, Field(pricing, tier).fields, "annual_monthly_factor", factors[tier])
  }

  ghost predicate ScenariosSay(c: Conversions, items: seq<Json>, rows: seq<UnitRow>, annual: map<string, real>,
                               factors: map<string, real>, scenarios: seq<ScenarioRow>)
    requires |rows| == 4
  {
    |scenarios| == |items| &&
    forall i | 0 <= i < |items| :: ScenarioSays(c, items[i], rows, annual, factors, scenarios[i])
  }

  lemma RowsPriced(c: Conversions, telemetry: Object, costs: CostModel)
    requires CostsInRange(costs) && UnitEconomics(c, telemetry, costs).Success?
    ensures var rows := UnitEconomics(c, telemetry, costs).value;
            |rows| == 4 && forall i | 0 <= i < 4 :: Priced(rows[i])
  {
    var rows := UnitEconomics(c, telemetry, costs).value;
    EconomicsRows(c, telemetry, costs);
    forall i | 0 <= i < 4 ensures Priced(rows[i]) {
      assert IsTierRow(c, telemetry, costs, TRACKED_TIERS[i], rows[i]);
      var inputs := TelemetryInputs(c, telemetry, TRACKED_TIERS[i]).value;
      if inputs.active == 0 {
        NoRevenueWithoutSubscriptions(TRACKED_TIERS[i], inputs, costs);
      }
    }
  }

  lemma BaselineStarts(c: Conversions, telemetry: Object, costs: CostModel, rows: seq<UnitRow>)
    requires CostsInRange(costs) && UnitEconomics(c, telemetry, costs) == Success(rows)
    ensures StartsFrom(BaselineOf(c, telemetry, costs, rows), rows)
  {
    var b := BaselineOf(c, telemetry, costs, rows);
    BaselineFits(c, telemetry, costs, rows);
    RowsPriced(c, telemetry, costs);
    forall i | 0 <= i < 4 ensures TIER_NAMES[i] in b.rows && b.rows[TIER_NAMES[i]] == rows[i] {
      assert RowMatches(b, TRACKED_TIERS[i], rows[i]);
    }
    forall tier | tier in TIER_NAMES ensures tier in b.mix && tier in b.factors {
      assert tier in TRACKED_TIERS;
    }
  }

  lemma {:induction false} FactorsRead(c: Conversions, pricing: Object, tiers: seq<string>)
    requires PricingFactors(c, pricing, tiers).Success?
    ensures var factors := PricingFactors(c, pricing, tiers).value;
            forall tier | tier in tiers ::
              && tier in factors && Field(pricing, tier).JObj?
              && NumberAt(c, Field(pricing, tier).fields, "annual_monthly_factor", factors[tier])
  {
    if tiers != [] {
      FactorsRead(c, pricing, tiers[1..]);
      assert tiers == [tiers[0]] + tiers[1..];
    }
  }

  lemma PublishedScenarios(c: Conversions, telemetry: Object, a: Object, p: Parsed, rows: seq<UnitRow>, m: Metrics,
                           totals: Totals)
    requires p.thresholds.requiredCloses >= 1 && Publish(c, telemetry, a, p, rows, m, totals).Success?
    ensures Field(telemetry, "pricing_reference").JObj?
    ensures PricingFactors(c, Field(telemetry, "pricing_reference").fields, TRACKED_TIERS).Success?
    ensures ScenarioRows(c, BaselineOf(c, telemetry, p.costs, rows), Field(a, "scenario_models")) ==
            Success(Publish(c, telemetry, a, p, rows, m, totals).value.scenarios)
  {
  }

  lemma BaselineFactors(c: Conversions, telemetry: Object, costs: CostModel, rows: seq<UnitRow>)
    requires Field(telemetry, "pricing_reference").JObj?
    requires PricingFactors(c, Field(telemetry, "pricing_reference").fields, TRACKED_TIERS).Success?
    ensures FactorsAre(c, telemetry, BaselineOf(c, telemetry, costs, rows).factors)
  {
    FactorsRead(c, Field(telemetry, "pricing_reference").fields, TRACKED_TIERS);
    assert TIER_NAMES == TRACKED_TIERS;
  }

  lemma AllScenariosRead(c: Conversions, b: Baseline, models: Json, rows: seq<UnitRow>)
    requires StartsFrom(b, rows) && ScenarioRows(c, b, models).Success?
    ensures var items := if models.JObj? then Items(models.fields, "price_sensitivity") else [];
            ScenariosSay(c, items, rows, b.mix, b.factors, ScenarioRows(c, b, models).value)
  {
    var items := if models.JObj? then Items(models.fields, "price_sensitivity") else [];
    if models.JObj? && Field(models.fields, "price_sensitivity").JList? {
      ScenarioCount(c, b, items);
      forall i: nat | i < |items|
        ensures ScenarioSays(c, items[i], rows, b.mix, b.factors, ScenarioRows(c, b, models).value[i])
      {
        ScenarioAt(c, b, items, i);
        ScenarioRead(c, b, items[i], rows);
      }
    }
  }

  /** Every packet reports one scenario for each item of the assumptions, whose revenue is that of its
      rows times the multipliers of the item and whose costs follow. */
  lemma PacketScenarios(c: Conversions, telemetry: Object, a: Object) returns (p: Parsed, factors: map<string, real>)
    requires Lawful(c) && FinanceOutputs(c, telemetry, a).Success?
    ensures AssumptionsAre(c, a, p) && FactorsAre(c, telemetry, factors)
    ensures var packet := FinanceOutputs(c, telemetry, a).value;
            |packet.rows| == 4
            && ScenariosSay(c, ScenarioItems(a), packet.rows, p.costs.annualMix, factors, packet.scenarios)
  {
    var rows, m, totals;
    p, rows, m, totals := Stages(c, telemetry, a);
    PublishedAsMeasured(c, telemetry, a, p, rows, m, totals);
    AssumptionsParsed(c, a, p);
    PublishedScenarios(c, telemetry, a, p, rows, m, totals);
    var b := BaselineOf(c, telemetry, p.costs, rows);
    factors := b.factors;
    BaselineStarts(c, telemetry, p.costs, rows);
    BaselineFactors(c, telemetry, p.costs, rows);
    AllScenariosRead(c, b, Field(a, "scenario_models"), rows);
  }
}
