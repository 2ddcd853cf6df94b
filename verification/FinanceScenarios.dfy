/** What-if scenarios over the packet's rows (`finance_committee_packet_scenarios.py`). */
module FinanceScenarios {
  import opened FinanceCommon
  import opened FinanceEngine
  import opened JsonValue
  import opened Rounding
  import opened Text

  /** The unit rows by tier, the annual mix, and the annual price factor of each tier. */
  datatype Baseline = Baseline(rows: map<string, UnitRow>, mix: map<string, real>, factors: map<string, real>)

  predicate BaselineOk(b: Baseline) {
    forall tier | tier in TRACKED_TIERS ::
      && tier in b.rows && tier in b.mix && tier in b.factors && RowOk(b.rows[tier])
      && 0.0 <= b.mix[tier] <= 1.0 && 0.0 <= b.factors[tier] <= 1.0
  }

  /** A tier's row divided among its subscriptions; a tier without any divides by one. */
  function PerSubscription(amount: real, active: int): real {
    amount / Max(active as real, 1.0)
  }

  function ScenarioEffective(row: UnitRow, factor: real, subMult: real, priceMult: real): real {
    var active := row.active as real * subMult;
    var monthly := PerSubscription(row.mrr, row.active) * priceMult;
    active * monthly * factor
  }

  function ScenarioCogs(row: UnitRow, effective: real, subMult: real): real {
    var active := row.active as real * subMult;
    PerSubscription(row.llmCogs, row.active) * active
    + row.infraCogs / Max(row.effective, 1.0) * effective
    + PerSubscription(row.supportCogs, row.active) * active
  }

  function Multiplier(c: Conversions, mults: Object, tier: string): Result<real> {
    ParseFloat(c, Field(mults, tier), "multiplier", Some(0.0), None)
  }

  function TierFactor(b: Baseline, tier: string): real
    requires tier in b.mix && tier in b.factors
  {
    AnnualFactor(b.mix[tier], b.factors[tier])
  }

  /** What one tier adds to the scenario's revenue and costs. */
  function TierShare(c: Conversions, b: Baseline, sub: Object, price: Object, tier: string): Result<(real, real)> {
    if tier !in b.rows || tier !in b.mix || tier !in b.factors then Failure("baseline")
    else
      var subMult :- Multiplier(c, sub, tier);
      var priceMult :- Multiplier(c, price, tier);
      var mrr := ScenarioEffective(b.rows[tier], TierFactor(b, tier), subMult, priceMult);
      Success((mrr, ScenarioCogs(b.rows[tier], mrr, subMult)))
  }

  type Share = string -> Result<(real, real)>

  function ShareOf(c: Conversions, b: Baseline, sub: Object, price: Object): Share {
    tier => TierShare(c, b, sub, price, tier)
  }

  function AddShares(share: Share, tiers: seq<string>, effective: real, cogs: real): Result<(real, real)>
    decreases tiers
  {
    if tiers == [] then Success((effective, cogs))
    else
      var part :- share(tiers[0]);
      AddShares(share, tiers[1..], effective + part.0, cogs + part.1)
  }

  /** The inner loop over the tiers. */
  method SumShares(share: Share) returns (r: Result<(real, real)>)
    ensures r == AddShares(share, TRACKED_TIERS, 0.0, 0.0)
  {
    var effective, cogs := 0.0, 0.0;
    assert TRACKED_TIERS[0..] == TRACKED_TIERS;
    for i := 0 to |TRACKED_TIERS|
      invariant AddShares(share, TRACKED_TIERS[i..], effective, cogs) == AddShares(share, TRACKED_TIERS, 0.0, 0.0)
    {
      assert TRACKED_TIERS[i..][1..] == TRACKED_TIERS[i + 1..];
      var part :- share(TRACKED_TIERS[i]);
      effective := effective + part.0;
      cogs := cogs + part.1;
    }
    return Success((effective, cogs));
  }

  datatype ScenarioRow = ScenarioRow(name: string, effective: real, margin: real)

  function OneScenario(c: Conversions, b: Baseline, scenario: Json): Result<ScenarioRow>
  {
    if !scenario.JObj? then Failure("price_sensitivity")
    else
      var name :- ParseNonEmpty(c, Field(scenario.fields, "name"), "price_sensitivity.name");
      var sub := Field(scenario.fields, "subscription_multipliers_by_tier");
      if !sub.JObj? then Failure("subscription_multipliers")
      else
        var price := Field(scenario.fields, "monthly_price_multipliers_by_tier");
        if !price.JObj? then Failure("monthly_price_multipliers")
        else
          var totals :- AddShares(ShareOf(c, b, sub.fields, price.fields), TRACKED_TIERS, 0.0, 0.0);
          Success(ScenarioRow(name, Round(totals.0, Two), Round(SafeMargin(totals.0, totals.1), Two)))
  }

  function Scenarios(c: Conversions, b: Baseline, scenarios: seq<Json>, output: seq<ScenarioRow>)
    : Result<seq<ScenarioRow>>
    decreases scenarios
  {
    if scenarios == [] then Success(output)
    else
      var row :- OneScenario(c, b, scenarios[0]);
      Scenarios(c, b, scenarios[1..], output + [row])
  }

  /** What `compute_scenario_rows` returns; without a list of scenarios there are no rows. */
  function ScenarioRows(c: Conversions, b: Baseline, models: Json): Result<seq<ScenarioRow>>
  {
    if models.JObj? && Field(models.fields, "price_sensitivity").JList? then
      Scenarios(c, b, Field(models.fields, "price_sensitivity").items, [])
    else Success([])
  }

  method ComputeScenarioRows(c: Conversions, b: Baseline, models: Json) returns (r: Result<seq<ScenarioRow>>)
    ensures r == ScenarioRows(c, b, models)
  {
    if !models.JObj? {
      return Success([]);
    }
    var raw := Field(models.fields, "price_sensitivity");
    if !raw.JList? {
      return Success([]);
    }
    var output: seq<ScenarioRow> := [];
    assert raw.items[0..] == raw.items;
    for i := 0 to |raw.items|
      invariant Scenarios(c, b, raw.items[i..], output) == Scenarios(c, b, raw.items, [])
    {
      assert raw.items[i..][1..] == raw.items[i + 1..];
      var computed := ComputeScenario(c, b, raw.items[i]);
      var row :- computed;
      output := output + [row];
    }
    return Success(output);
  }

  method ComputeScenario(c: Conversions, b: Baseline, scenario: Json) returns (r: Result<ScenarioRow>)
    ensures r == OneScenario(c, b, scenario)
  {
    if !scenario.JObj? {
      return Failure("price_sensitivity");
    }
    var name :- ParseNonEmpty(c, Field(scenario.fields, "name"), "price_sensitivity.name");
    var sub := Field(scenario.fields, "subscription_multipliers_by_tier");
    if !sub.JObj? {
      return Failure("subscription_multipliers");
    }
    var price := Field(scenario.fields, "monthly_price_multipliers_by_tier");
    if !price.JObj? {
      return Failure("monthly_price_multipliers");
    }
    var summed := SumShares(ShareOf(c, b, sub.fields, price.fields));
    var totals :- summed;
    return Success(ScenarioRow(name, Round(totals.0, Two), Round(SafeMargin(totals.0, totals.1), Two)));
  }

  // --------------------------------------------------------------- monotonicity

  lemma ProductMonotone(a: real, b: real, x: real, y: real)
    requires 0.0 <= a <= x && 0.0 <= b <= y
    ensures 0.0 <= a * b <= x * y
  {
    ProductNonNegative(a, b);
    ProductNonNegative(x - a, b);
    ProductNonNegative(x, y - b);
    assert x * y == a * b + (x - a) * b + x * (y - b);
  }

  lemma PerSubscriptionNonNegative(amount: real, active: int)
    requires 0.0 <= amount
    ensures 0.0 <= PerSubscription(amount, active)
  {
    FinanceEngine.DivideMonotone(0.0, amount, Max(active as real, 1.0));
  }

  lemma EffectiveMonotone(row: UnitRow, factor: real, sub: real, price: real, sub': real, price': real)
    requires RowOk(row) && 0.0 <= factor && 0.0 <= sub <= sub' && 0.0 <= price <= price'
    ensures 0.0 <= ScenarioEffective(row, factor, sub, price) <= ScenarioEffective(row, factor, sub', price')
  {
    var active, each := row.active as real, PerSubscription(row.mrr, row.active);
    PerSubscriptionNonNegative(row.mrr, row.active);
    ProductMonotone(active, sub, active, sub');
    ProductMonotone(each, price, each, price');
    ProductMonotone(active * sub, each * price, active * sub', each * price');
    ProductMonotone(active * sub * (each * price), factor, active * sub' * (each * price'), factor);
  }

  /** Tier by tier, every multiplier of the first scenario is at most that of the second. */
  predicate MultipliersAtMost(c: Conversions, sub: Object, price: Object, sub': Object, price': Object) {
    forall tier | tier in TRACKED_TIERS ::
      && Multiplier(c, sub, tier).Success? && Multiplier(c, sub', tier).Success?
      && Multiplier(c, price, tier).Success? && Multiplier(c, price', tier).Success?
      && Multiplier(c, sub, tier).value <= Multiplier(c, sub', tier).value
      && Multiplier(c, price, tier).value <= Multiplier(c, price', tier).value
  }

  lemma ShareMonotone(c: Conversions, b: Baseline, sub: Object, price: Object, sub': Object, price': Object,
                      tier: string)
    requires BaselineOk(b) && MultipliersAtMost(c, sub, price, sub', price') && tier in TRACKED_TIERS
    ensures var low, high := TierShare(c, b, sub, price, tier), TierShare(c, b, sub', price', tier);
            low.Success? && high.Success? && low.value.0 <= high.value.0
  {
    FactorInRange(b.mix[tier], b.factors[tier]);
    EffectiveMonotone(b.rows[tier], TierFactor(b, tier), Multiplier(c, sub, tier).value,
                      Multiplier(c, price, tier).value,
                      Multiplier(c, sub', tier).value, Multiplier(c, price', tier).value);
  }

  lemma {:induction false} SumMonotone(low: Share, high: Share, tiers: seq<string>, e: real, k: real, e': real,
                                       k': real)
    requires forall i | 0 <= i < |tiers| ::
               low(tiers[i]).Success? && high(tiers[i]).Success? && low(tiers[i]).value.0 <= high(tiers[i]).value.0
    requires e <= e'
    ensures var r, r' := AddShares(low, tiers, e, k), AddShares(high, tiers, e', k');
            r.Success? && r'.Success? && r.value.0 <= r'.value.0
    decreases tiers
  {
    if tiers != [] {
      var a, b := low(tiers[0]).value, high(tiers[0]).value;
      assert forall i | 0 <= i < |tiers| - 1 :: tiers[1..][i] == tiers[i + 1];
      SumMonotone(low, high, tiers[1..], e + a.0, k + a.1, e' + b.0, k' + b.1);
    }
  }

  function ScenarioJson(name: string, sub: Object, price: Object): Json {
    JObj(map["name" := JStr(name), "subscription_multipliers_by_tier" := JObj(sub),
             "monthly_price_multipliers_by_tier" := JObj(price)])
  }

  lemma ScenarioFields(name: string, sub: Object, price: Object)
    ensures var m := ScenarioJson(name, sub, price).fields;
            && Field(m, "name") == JStr(name)
            && Field(m, "subscription_multipliers_by_tier") == JObj(sub)
            && Field(m, "monthly_price_multipliers_by_tier") == JObj(price)
  {
  }

  /** Raising any subscription or price multiplier of any tier never lowers the effective revenue a
      scenario reports. */
  lemma ScenarioMonotone(c: Conversions, b: Baseline, name: string, sub: Object, price: Object, sub': Object,
                         price': Object)
    requires BaselineOk(b) && Strip(name) != "" && MultipliersAtMost(c, sub, price, sub', price')
    ensures var low := OneScenario(c, b, ScenarioJson(name, sub, price));
            var high := OneScenario(c, b, ScenarioJson(name, sub', price'));
            low.Success? && high.Success? && low.value.effective <= high.value.effective
  {
    ScenarioFields(name, sub, price);
    ScenarioFields(name, sub', price');
    var low, high := ShareOf(c, b, sub, price), ShareOf(c, b, sub', price');
    forall i | 0 <= i < |TRACKED_TIERS|
      ensures var tier := TRACKED_TIERS[i];
              low(tier).Success? && high(tier).Success? && low(tier).value.0 <= high(tier).value.0
    {
      ShareMonotone(c, b, sub, price, sub', price', TRACKED_TIERS[i]);
    }
    SumMonotone(low, high, TRACKED_TIERS, 0.0, 0.0, 0.0, 0.0);
    RoundMonotone(AddShares(low, TRACKED_TIERS, 0.0, 0.0).value.0, AddShares(high, TRACKED_TIERS, 0.0, 0.0).value.0,
                  Two);
  }

  // ------------------------------------------------------- the all-ones scenario

  /** With all multipliers one a tier's scenario revenue is the rounded gross revenue times the
      annual factor. */
  lemma OnesEffective(row: UnitRow, factor: real)
    requires 0 <= row.active && (row.active == 0 ==> row.mrr == 0.0)
    ensures ScenarioEffective(row, factor, 1.0, 1.0) == row.mrr * factor
  {
    var active := row.active as real;
    if row.active > 0 {
      var each := PerSubscription(row.mrr, row.active);
      assert Max(active, 1.0) == active;
      assert each * active == row.mrr;
      assert active * 1.0 * (each * 1.0) == active * each;
    } else {
      assert PerSubscription(row.mrr, row.active) == 0.0;
    }
  }

  /** Rounding before a discount and rounding after it differ by at most a cent. */
  lemma TwoRoundings(gross: real, factor: real)
    requires 0.0 <= factor <= 1.0
    ensures -0.01 <= Round(gross, Two) * factor - Round(gross * factor, Two) <= 0.01
  {
    RoundClose(gross, Two);
    RoundClose(gross * factor, Two);
    var slip := Round(gross, Two) - gross;
    SlipShrinks(slip, factor, 0.005);
    assert Round(gross, Two) * factor == (gross + slip) * factor == gross * factor + slip * factor;
  }

  lemma SlipShrinks(slip: real, factor: real, bound: real)
    requires -bound <= slip <= bound && 0.0 <= factor <= 1.0
    ensures -bound <= slip * factor <= bound
  {
    var above, below, rest := bound - slip, bound + slip, 1.0 - factor;
    var part, whole := slip * factor, bound * factor;
    ProductNonNegative(above, factor);
    ProductNonNegative(below, factor);
    ProductNonNegative(bound, rest);
    assert above * factor == whole - part && below * factor == whole + part && bound * rest == bound - whole;
  }

  lemma NoRevenueWithoutSubscriptions(tier: string, inputs: TierInputs, costs: CostModel)
    requires HasTier(costs, tier) && inputs.active == 0
    ensures UnitRowOf(tier, inputs, costs).mrr == 0.0
  {
    assert GrossMrr(inputs) == 0.0;
    RoundGrid(0.0, Two);
  }

  /** The scenario revenue of a tier is within a cent of its row. */
  lemma OnesClose(tier: string, inputs: TierInputs, costs: CostModel, factor: real)
    requires HasTier(costs, tier) && 0 <= inputs.active
    requires 0.0 <= factor <= 1.0 && EffectiveMrr(inputs, costs.annualMix[tier]) == GrossMrr(inputs) * factor
    ensures var row := UnitRowOf(tier, inputs, costs);
            -0.01 <= ScenarioEffective(row, factor, 1.0, 1.0) - row.effective <= 0.01
  {
    if inputs.active == 0 {
      NoRevenueWithoutSubscriptions(tier, inputs, costs);
    }
    RowAmounts(tier, inputs, costs);
    OnesRow(UnitRowOf(tier, inputs, costs), GrossMrr(inputs), EffectiveMrr(inputs, costs.annualMix[tier]), factor);
  }

  lemma RowAmounts(tier: string, inputs: TierInputs, costs: CostModel)
    requires HasTier(costs, tier)
    ensures var row := UnitRowOf(tier, inputs, costs);
            && row.mrr == Round(GrossMrr(inputs), Two) && row.active == inputs.active
            && row.effective == Round(EffectiveMrr(inputs, costs.annualMix[tier]), Two)
  {
  }

  lemma OnesRow(row: UnitRow, gross: real, effective: real, factor: real)
    requires 0.0 <= factor <= 1.0 && 0 <= row.active && (row.active == 0 ==> row.mrr == 0.0)
    requires effective == gross * factor && row.mrr == Round(gross, Two) && row.effective == Round(effective, Two)
    ensures -0.01 <= ScenarioEffective(row, factor, 1.0, 1.0) - row.effective <= 0.01
  {
    OnesEffective(row, factor);
    TwoRoundings(gross, factor);
  }

  /** The multipliers of the scenario named "baseline". */
  predicate AllOnes(c: Conversions, mults: Object) {
    forall tier | tier in TRACKED_TIERS :: Multiplier(c, mults, tier) == Success(1.0)
  }

  predicate RowMatches(b: Baseline, tier: string, row: UnitRow) {
    && tier in b.rows && tier in b.mix && tier in b.factors && b.rows[tier] == row
    && -0.01 <= ScenarioEffective(row, TierFactor(b, tier), 1.0, 1.0) - row.effective <= 0.01
  }

  lemma OnesShare(c: Conversions, b: Baseline, sub: Object, price: Object, tier: string, row: UnitRow)
    requires tier in TRACKED_TIERS && RowMatches(b, tier, row) && AllOnes(c, sub) && AllOnes(c, price)
    ensures var share := TierShare(c, b, sub, price, tier);
            share.Success? && -0.01 <= share.value.0 - row.effective <= 0.01
  {
  }

  /** Shares that are each within a cent of their row add up to within a cent per tier of the total. */
  lemma {:induction false} SumClose(c: Conversions, llm: map<string, Object>, share: Share, tiers: seq<string>,
                                    rows: seq<UnitRow>, effective: real, cogs: real, totals: Totals, slack: real)
    requires |tiers| == |rows| && Accumulate(c, llm, rows, totals).Success?
    requires forall i | 0 <= i < |tiers| ::
               share(tiers[i]).Success? && -0.01 <= share(tiers[i]).value.0 - rows[i].effective <= 0.01
    requires -slack <= effective - totals.effective <= slack
    ensures var r, bound := AddShares(share, tiers, effective, cogs), slack + 0.01 * |tiers| as real;
            r.Success? && -bound <= r.value.0 - Accumulate(c, llm, rows, totals).value.effective <= bound
    decreases tiers
  {
    if tiers != [] {
      var part := share(tiers[0]).value;
      var worst := WorstP95(c, llm, rows[0], totals.worstP95).value;
      assert forall i | 0 <= i < |tiers| - 1 :: tiers[1..][i] == tiers[i + 1] && rows[1..][i] == rows[i + 1];
      SumClose(c, llm, share, tiers[1..], rows[1..], effective + part.0, cogs + part.1, AddRow(totals, rows[0], worst),
               slack + 0.01);
    }
  }

  predicate RowsMatch(b: Baseline, rows: seq<UnitRow>) {
    |rows| == |TRACKED_TIERS| && forall i | 0 <= i < |rows| :: RowMatches(b, TRACKED_TIERS[i], rows[i])
  }

  /** A scenario whose multipliers are all one reports the packet's own effective revenue, to within
      four and a half cents. */
  lemma OnesReproduceTotals(c: Conversions, llm: map<string, Object>, b: Baseline, rows: seq<UnitRow>, name: string,
                            sub: Object, price: Object)
    requires RowsMatch(b, rows) && AllOnes(c, sub) && AllOnes(c, price) && Strip(name) != ""
    requires RowsOk(rows) && Accumulate(c, llm, rows, ZERO_TOTALS).Success?
    ensures var r := OneScenario(c, b, ScenarioJson(name, sub, price));
            var totals := RoundTotals(Accumulate(c, llm, rows, ZERO_TOTALS).value);
            r.Success? && -0.045 <= r.value.effective - totals.effective <= 0.045
  {
    var share := ShareOf(c, b, sub, price);
    ScenarioFields(name, sub, price);
    forall i | 0 <= i < |TRACKED_TIERS|
      ensures var part := share(TRACKED_TIERS[i]);
              part.Success? && -0.01 <= part.value.0 - rows[i].effective <= 0.01
    {
      OnesShare(c, b, sub, price, TRACKED_TIERS[i], rows[i]);
    }
    SumClose(c, llm, share, TRACKED_TIERS, rows, 0.0, 0.0, ZERO_TOTALS, 0.0);
    AccumulatedOk(c, llm, rows, ZERO_TOTALS);
    RoundGrid(Accumulate(c, llm, rows, ZERO_TOTALS).value.effective, Two);
    RoundClose(AddShares(share, TRACKED_TIERS, 0.0, 0.0).value.0, Two);
  }
}
