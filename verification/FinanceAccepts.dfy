/** When the packet program produces a packet: the exact condition on the telemetry and the assumptions. */
module FinanceAccepts {
  import FinanceAssumptions
  import opened FinanceCommon
  import opened FinanceEngine
  import opened FinancePacket
  import opened FinancePublished
  import opened FinanceReading
  import opened FinanceScenarios
  import opened FinanceWhatIf
  import opened JsonValue
  import opened Text

  // ----------------------------------------------------------------- numbers

  /** A number that is at least `low`. */
  predicate AtLeast(c: Conversions, j: Json, low: real) {
    c.toFloat(j).Some? && low <= c.toFloat(j).value
  }

  predicate InRange(c: Conversions, j: Json, low: real, high: real) {
    AtLeast(c, j, low) && c.toFloat(j).value <= high
  }

  /** A field that may be missing, and otherwise is not negative. */
  predicate AmountOk(c: Conversions, fields: Object, key: string) {
    key in fields ==> AtLeast(c, fields[key], 0.0)
  }

  predicate CountOk(c: Conversions, fields: Object, key: string) {
    key in fields ==> c.toInt(fields[key]).Some? && 0 <= c.toInt(fields[key]).value
  }

  lemma AmountIff(c: Conversions, fields: Object, key: string, field: string)
    requires Lawful(c)
    ensures ParseFloat(c, GetOr(fields, key, JReal(0.0)), field, Some(0.0), None).Success? <==> AmountOk(c, fields, key)
  {
  }

  lemma CountIff(c: Conversions, fields: Object, key: string, field: string)
    requires Lawful(c)
    ensures ParseInt(c, GetOr(fields, key, JInt(0)), field, Some(0)).Success? <==> CountOk(c, fields, key)
  {
  }

  // ------------------------------------------------------------------- lists

  function TierText(c: Conversions, item: Json): string {
    if item.JObj? then TextOf(c, Field(item.fields, "tier")) else ""
  }

  /** Every item is about a tier of its own. */
  predicate TiersApart(c: Conversions, items: seq<Json>) {
    && (forall i | 0 <= i < |items| :: TierText(c, items[i]) != "")
    && (forall i, k | 0 <= i < k < |items| :: Lower(TierText(c, items[i])) != Lower(TierText(c, items[k])))
  }

  predicate ApartFrom(c: Conversions, items: seq<Json>, taken: set<string>) {
    forall i | 0 <= i < |items| :: Lower(TierText(c, items[i])) !in taken
  }

  lemma NamedIff(c: Conversions, item: Json, field: string)
    ensures TierName(c, item, field).Success? <==> TierText(c, item) != ""
    ensures TierName(c, item, field).Success? ==> TierName(c, item, field).value == Lower(TierText(c, item))
  {
  }

  lemma ApartCons(c: Conversions, items: seq<Json>, taken: set<string>)
    requires items != []
    ensures var tier := Lower(TierText(c, items[0]));
            TiersApart(c, items) && ApartFrom(c, items, taken) <==>
            && TierText(c, items[0]) != "" && tier !in taken
            && TiersApart(c, items[1..]) && ApartFrom(c, items[1..], taken + {tier})
  {
    assert forall i | 0 <= i < |items| - 1 :: items[1..][i] == items[i + 1];
    assert forall i | 0 < i < |items| :: items[i] == items[1..][i - 1];
  }

  lemma {:induction false} IndexedIff(c: Conversions, items: seq<Json>, field: string, m: map<string, Object>)
    ensures IndexRows(c, items, field, m).Success? <==> TiersApart(c, items) && ApartFrom(c, items, m.Keys)
    decreases items
  {
    if items != [] {
      NamedIff(c, items[0], field);
      ApartCons(c, items, m.Keys);
      if TierText(c, items[0]) != "" {
        var tier := Lower(TierText(c, items[0]));
        IndexedIff(c, items[1..], field, m[tier := items[0].fields]);
        assert m[tier := items[0].fields].Keys == m.Keys + {tier};
      }
    }
  }

  predicate ListOk(c: Conversions, telemetry: Object, list: string) {
    Field(telemetry, list).JList? && TiersApart(c, Field(telemetry, list).items)
  }

  lemma ListIff(c: Conversions, telemetry: Object, list: string)
    ensures var rows := ListField(telemetry, list);
            rows.Success? && IndexRows(c, rows.value, list, map[]).Success? <==> ListOk(c, telemetry, list)
    ensures ListField(telemetry, list).Success? ==> ListField(telemetry, list).value == Items(telemetry, list)
  {
    if Field(telemetry, list).JList? {
      IndexedIff(c, Items(telemetry, list), list, map[]);
    }
  }

  // --------------------------------------------------------------- telemetry

  /** The numbers of a tier are there where they have to be, and in range. */
  predicate PriceOk(c: Conversions, telemetry: Object, tier: string) {
    && Field(telemetry, "pricing_reference").JObj?
    && var price := Field(Field(telemetry, "pricing_reference").fields, tier);
    && price.JObj?
    && AtLeast(c, Field(price.fields, "monthly_price_usd"), 0.0)
    && InRange(c, Field(price.fields, "annual_monthly_factor"), 0.0, 1.0)
  }

  ghost predicate TierOk(c: Conversions, telemetry: Object, tier: string) {
    && PriceOk(c, telemetry, tier)
    && (forall row: Object | RowIs(c, Items(telemetry, "tier_subscription_snapshot"), tier, row) ::
          CountOk(c, row, "active_subscriptions") && CountOk(c, row, "dunning_events"))
    && (forall row: Object | RowIs(c, Items(telemetry, "tier_llm_usage"), tier, row) ::
          AmountOk(c, row, "total_cost_usd"))
  }

  ghost predicate PercentilesOk(c: Conversions, telemetry: Object, tier: string) {
    forall row: Object | RowIs(c, Items(telemetry, "tier_llm_usage"), tier, row) ::
      var percentiles := Field(row, "tenant_monthly_cost_percentiles_usd");
      percentiles.JObj? ==> AmountOk(c, percentiles.fields, "p95")
  }

  ghost predicate EconomicsOk(c: Conversions, telemetry: Object) {
    && Field(telemetry, "pricing_reference").JObj?
    && ListOk(c, telemetry, "tier_subscription_snapshot") && ListOk(c, telemetry, "tier_llm_usage")
    && forall tier | tier in TIER_NAMES :: TierOk(c, telemetry, tier)
  }

  lemma PriceIff(c: Conversions, telemetry: Object, tier: string)
    requires Field(telemetry, "pricing_reference").JObj?
    ensures var price := Field(Field(telemetry, "pricing_reference").fields, tier);
            PriceOk(c, telemetry, tier) <==>
            && price.JObj?
            && ParseFloat(c, Field(price.fields, "monthly_price_usd"), "monthly_price_usd", Some(0.0), None).Success?
            && ParseFloat(c, Field(price.fields, "annual_monthly_factor"), "annual_monthly_factor", Some(0.0),
                          Some(1.0)).Success?
  {
  }

  lemma TierIff(c: Conversions, telemetry: Object, subscriptions: map<string, Object>, llm: map<string, Object>,
                tier: string)
    requires Lawful(c) && Field(telemetry, "pricing_reference").JObj?
    requires IndexRows(c, Items(telemetry, "tier_subscription_snapshot"), "tier_subscription_snapshot", map[]) ==
             Success(subscriptions)
    requires IndexRows(c, Items(telemetry, "tier_llm_usage"), "tier_llm_usage", map[]) == Success(llm)
    ensures ParseInputs(c, Field(telemetry, "pricing_reference").fields, subscriptions, llm, tier).Success? <==>
            TierOk(c, telemetry, tier)
  {
    IndexFinds(c, Items(telemetry, "tier_subscription_snapshot"), "tier_subscription_snapshot", subscriptions, tier);
    IndexFinds(c, Items(telemetry, "tier_llm_usage"), "tier_llm_usage", llm, tier);
    PriceIff(c, telemetry, tier);
    CountIff(c, ObjectAt(subscriptions, tier), "active_subscriptions", "active_subscriptions");
    CountIff(c, ObjectAt(subscriptions, tier), "dunning_events", "dunning_events");
    AmountIff(c, ObjectAt(llm, tier), "total_cost_usd", "total_cost_usd");
    assert RowIs(c, Items(telemetry, "tier_subscription_snapshot"), tier, ObjectAt(subscriptions, tier));
    assert RowIs(c, Items(telemetry, "tier_llm_usage"), tier, ObjectAt(llm, tier));
  }

  lemma {:induction false} BuiltIff(make: RowMaker, tiers: seq<string>, rows: seq<UnitRow>)
    ensures BuildRows(make, tiers, rows).Success? <==> forall i | 0 <= i < |tiers| :: make(tiers[i]).Success?
    decreases tiers
  {
    if tiers != [] {
      assert forall i | 0 < i < |tiers| :: tiers[i] == tiers[1..][i - 1];
      assert forall i | 0 <= i < |tiers| - 1 :: tiers[1..][i] == tiers[i + 1];
      if make(tiers[0]).Success? {
        BuiltIff(make, tiers[1..], rows + [make(tiers[0]).value]);
      }
    }
  }

  lemma MakeIff(c: Conversions, pricing: Object, subscriptions: map<string, Object>, llm: map<string, Object>,
                costs: CostModel, tier: string)
    requires HasTier(costs, tier)
    ensures TierRow(c, pricing, subscriptions, llm, costs, tier).Success? <==>
            ParseInputs(c, pricing, subscriptions, llm, tier).Success?
  {
  }

  lemma RowsIff(c: Conversions, telemetry: Object, subscriptions: map<string, Object>, llm: map<string, Object>,
                costs: CostModel, make: RowMaker)
    requires Lawful(c) && HasTiers(costs) && Field(telemetry, "pricing_reference").JObj?
    requires IndexRows(c, Items(telemetry, "tier_subscription_snapshot"), "tier_subscription_snapshot", map[]) ==
             Success(subscriptions)
    requires IndexRows(c, Items(telemetry, "tier_llm_usage"), "tier_llm_usage", map[]) == Success(llm)
    requires forall tier :: make(tier) ==
               TierRow(c, Field(telemetry, "pricing_reference").fields, subscriptions, llm, costs, tier)
    ensures BuildRows(make, TRACKED_TIERS, []).Success? <==>
            forall tier | tier in TIER_NAMES :: TierOk(c, telemetry, tier)
  {
    BuiltIff(make, TRACKED_TIERS, []);
    forall tier | tier in TIER_NAMES ensures make(tier).Success? <==> TierOk(c, telemetry, tier) {
      assert tier in TRACKED_TIERS && HasTier(costs, tier);
      MakeIff(c, Field(telemetry, "pricing_reference").fields, subscriptions, llm, costs, tier);
      TierIff(c, telemetry, subscriptions, llm, tier);
    }
    assert TIER_NAMES == TRACKED_TIERS;
  }

  /** The unit economics exist exactly when pricing is an object, both lists are about different tiers, and
      the numbers of the four tiers are in range; a tier without a row counts with zeros. */
  lemma EconomicsIff(c: Conversions, telemetry: Object, costs: CostModel)
    requires Lawful(c) && HasTiers(costs)
    ensures UnitEconomics(c, telemetry, costs).Success? <==> EconomicsOk(c, telemetry)
  {
    ListIff(c, telemetry, "tier_subscription_snapshot");
    ListIff(c, telemetry, "tier_llm_usage");
    if Field(telemetry, "pricing_reference").JObj? && ListOk(c, telemetry, "tier_subscription_snapshot")
       && ListOk(c, telemetry, "tier_llm_usage") {
      var subscriptions := IndexRows(c, Items(telemetry, "tier_subscription_snapshot"), "tier_subscription_snapshot",
                                     map[]).value;
      var llm := IndexRows(c, Items(telemetry, "tier_llm_usage"), "tier_llm_usage", map[]).value;
      var pricing := Field(telemetry, "pricing_reference").fields;
      RowsIff(c, telemetry, subscriptions, llm, costs,
              tier => TierRow(c, pricing, subscriptions, llm, costs, tier));
    }
  }

  lemma PercentilesIff(c: Conversions, telemetry: Object, llm: map<string, Object>, tier: string)
    requires Lawful(c)
    requires IndexRows(c, Items(telemetry, "tier_llm_usage"), "tier_llm_usage", map[]) == Success(llm)
    ensures P95Cost(c, llm, tier).Success? <==> PercentilesOk(c, telemetry, tier)
  {
    IndexFinds(c, Items(telemetry, "tier_llm_usage"), "tier_llm_usage", llm, tier);
    var row := ObjectAt(llm, tier);
    assert RowIs(c, Items(telemetry, "tier_llm_usage"), tier, row);
    var percentiles := Field(row, "tenant_monthly_cost_percentiles_usd");
    if percentiles.JObj? {
      AmountIff(c, percentiles.fields, "p95", "p95");
    }
  }

  lemma {:induction false} AccumulatedIff(c: Conversions, llm: map<string, Object>, rows: seq<UnitRow>, totals: Totals)
    ensures Accumulate(c, llm, rows, totals).Success? <==>
            forall i | 0 <= i < |rows| :: P95Cost(c, llm, rows[i].tier).Success?
    decreases rows
  {
    if rows != [] {
      assert forall i | 0 < i < |rows| :: rows[i] == rows[1..][i - 1];
      assert forall i | 0 <= i < |rows| - 1 :: rows[1..][i] == rows[i + 1];
      var worst := WorstP95(c, llm, rows[0], totals.worstP95);
      if worst.Success? {
        AccumulatedIff(c, llm, rows[1..], AddRow(totals, rows[0], worst.value));
      }
    }
  }

  lemma RowTiers(c: Conversions, telemetry: Object, costs: CostModel, rows: seq<UnitRow>)
    requires Lawful(c) && CostsInRange(costs) && UnitEconomics(c, telemetry, costs) == Success(rows)
    ensures |rows| == 4 && forall i | 0 <= i < 4 :: rows[i].tier == TIER_NAMES[i]
  {
    EconomicsRows(c, telemetry, costs);
    forall i | 0 <= i < 4 ensures rows[i].tier == TIER_NAMES[i] {
      assert IsTierRow(c, telemetry, costs, TRACKED_TIERS[i], rows[i]);
    }
  }

  lemma MeasureIff(c: Conversions, telemetry: Object, costs: CostModel, rows: seq<UnitRow>, signals: Signals,
                   multiplier: real)
    requires Lawful(c) && CostsInRange(costs) && UnitEconomics(c, telemetry, costs) == Success(rows)
    ensures Measure(c, rows, telemetry, signals, multiplier).Success? <==>
            forall tier | tier in TIER_NAMES :: PercentilesOk(c, telemetry, tier)
  {
    RowTiers(c, telemetry, costs, rows);
    var llm := IndexRows(c, Items(telemetry, "tier_llm_usage"), "tier_llm_usage", map[]).value;
    AccumulatedIff(c, llm, rows, ZERO_TOTALS);
    forall tier | tier in TIER_NAMES
      ensures P95Cost(c, llm, tier).Success? <==> PercentilesOk(c, telemetry, tier)
    {
      PercentilesIff(c, telemetry, llm, tier);
    }
  }

  // ------------------------------------------------------------- assumptions

  predicate IsNumber(c: Conversions, fields: Object, key: string) {
    c.toFloat(Field(fields, key)).Some?
  }

  predicate TierMapOk(c: Conversions, a: Object, key: string, high: Option<real>) {
    && Field(a, key).JObj?
    && forall tier | tier in TIER_NAMES ::
         && AtLeast(c, Field(Field(a, key).fields, tier), 0.0)
         && (high.Some? ==> c.toFloat(Field(Field(a, key).fields, tier)).value <= high.value)
  }

  predicate CostsOk(c: Conversions, a: Object) {
    && TierMapOk(c, a, "annual_mix_by_tier", Some(1.0))
    && TierMapOk(c, a, "infra_cogs_percent_of_" + "effective_mrr_by_tier", None)
    && TierMapOk(c, a, "support_cogs_per_active_" + "subscription_usd_by_tier", None)
    && AtLeast(c, Field(a, "support_cogs_per_dunning_event_usd"), 0.0)
  }

  predicate SignalsOk(c: Conversions, a: Object) {
    && Field(a, "conversion_signals").JObj? && Field(a, "stress_scenario").JObj?
    && IsNumber(c, Field(a, "conversion_signals").fields, "growth_to_pro_" + "conversion_mom_delta_percent")
    && IsNumber(c, Field(a, "conversion_signals").fields, "pro_to_enterprise_" + "conversion_mom_delta_percent")
    && AtLeast(c, Field(Field(a, "stress_scenario").fields, "infra_cost_multiplier"), 1.0)
  }

  /** How many closes the margin gate looks at: two unless the thresholds say otherwise. */
  function ClosesWanted(c: Conversions, thresholds: Object): Option<int> {
    if "required_consecutive_margin_closes" in thresholds
    then c.toInt(thresholds["required_consecutive_margin_closes"]) else Some(2)
  }

  predicate ThresholdsOk(c: Conversions, a: Object) {
    && Field(a, "thresholds").JObj?
    && var t := Field(a, "thresholds").fields;
    && InRange(c, Field(t, "min_blended_gross_margin_percent"), 0.0, 100.0)
    && AtLeast(c, Field(t, "max_p95_tenant_llm_cogs_pct_mrr"), 0.0)
    && InRange(c, Field(t, "max_annual_discount_impact_percent"), 0.0, 100.0)
    && IsNumber(c, t, "min_growth_to_pro_" + "conversion_mom_delta_percent")
    && IsNumber(c, t, "min_pro_to_enterprise_" + "conversion_mom_delta_percent")
    && InRange(c, Field(t, "min_stress_margin_percent"), 0.0, 100.0)
    && ClosesWanted(c, t).Some? && 1 <= ClosesWanted(c, t).value
  }

  function MonthText(c: Conversions, item: Json): string {
    if item.JObj? then TextOf(c, Field(item.fields, "month")) else ""
  }

  predicate CloseOk(c: Conversions, item: Json) {
    MonthText(c, item) != "" && InRange(c, Field(item.fields, "blended_gross_margin_percent"), 0.0, 100.0)
  }

  predicate ClosesOk(c: Conversions, items: seq<Json>, taken: set<string>) {
    && (forall i | 0 <= i < |items| :: CloseOk(c, items[i]) && MonthText(c, items[i]) !in taken)
    && (forall i, k | 0 <= i < k < |items| :: MonthText(c, items[i]) != MonthText(c, items[k]))
  }

  /** No history at all, or a list of months of their own with their margins. */
  predicate HistoryOk(c: Conversions, a: Object) {
    var raw := Field(a, "close_history");
    raw.JNull? || (raw.JList? && ClosesOk(c, raw.items, {}))
  }

  predicate AssumptionsOk(c: Conversions, a: Object) {
    CostsOk(c, a) && SignalsOk(c, a) && ThresholdsOk(c, a) && HistoryOk(c, a)
  }

  lemma TierMapIff(c: Conversions, a: Object, key: string, high: Option<real>)
    ensures TierFloatMap(c, Field(a, key), key, Some(0.0), high).Success? <==> TierMapOk(c, a, key, high)
  {
    if Field(a, key).JObj? {
      var raw := Field(a, key).fields;
      ParsedTiers(c, raw, key, Some(0.0), high, TRACKED_TIERS, map[]);
      assert TIER_NAMES == TRACKED_TIERS;
      assert forall tier | tier in TIER_NAMES ::
          ParseFloat(c, Field(raw, tier), key, Some(0.0), high).Success? <==>
          AtLeast(c, Field(raw, tier), 0.0) && (high.Some? ==> c.toFloat(Field(raw, tier)).value <= high.value);
    }
  }

  lemma CostsIff(c: Conversions, a: Object)
    ensures ParseCosts(c, a).Success? <==> CostsOk(c, a)
  {
    TierMapIff(c, a, "annual_mix_by_tier", Some(1.0));
    TierMapIff(c, a, FinanceAssumptions.INFRA_KEY, None);
    TierMapIff(c, a, FinanceAssumptions.SUPPORT_KEY, None);
  }

  lemma SignalsIff(c: Conversions, a: Object)
    ensures ParseSignals(c, a).Success? <==> SignalsOk(c, a)
  {
  }

  lemma ThresholdsIff(c: Conversions, a: Object)
    requires Lawful(c)
    ensures ParseThresholds(c, Field(a, "thresholds")).Success? <==> ThresholdsOk(c, a)
  {
  }

  lemma CloseIff(c: Conversions, item: Json)
    ensures ParseClose(c, item).Success? <==> CloseOk(c, item)
    ensures ParseClose(c, item).Success? ==> ParseClose(c, item).value.month == MonthText(c, item)
  {
  }

  lemma ClosesCons(c: Conversions, items: seq<Json>, taken: set<string>)
    requires items != []
    ensures ClosesOk(c, items, taken) <==>
            && CloseOk(c, items[0]) && MonthText(c, items[0]) !in taken
            && ClosesOk(c, items[1..], taken + {MonthText(c, items[0])})
  {
    assert forall i | 0 <= i < |items| - 1 :: items[1..][i] == items[i + 1];
    assert forall i | 0 < i < |items| :: items[i] == items[1..][i - 1];
  }

  lemma {:induction false} ClosesIff(c: Conversions, items: seq<Json>, seen: set<string>, parsed: seq<Close>)
    ensures ParseCloses(c, items, seen, parsed).Success? <==> ClosesOk(c, items, seen)
    decreases items
  {
    if items != [] {
      CloseIff(c, items[0]);
      ClosesCons(c, items, seen);
      if CloseOk(c, items[0]) {
        var close := ParseClose(c, items[0]).value;
        ClosesIff(c, items[1..], seen + {close.month}, parsed + [close]);
      }
    }
  }

  lemma HistoryIff(c: Conversions, a: Object)
    ensures CloseHistory(c, Field(a, "close_history")).Success? <==> HistoryOk(c, a)
  {
    if Field(a, "close_history").JList? {
      ClosesIff(c, Field(a, "close_history").items, {}, []);
    }
  }

  /** The assumptions are read exactly when every number is there and in range. */
  lemma AssumptionsIff(c: Conversions, a: Object)
    requires Lawful(c)
    ensures ParseAssumptions(c, a).Success? <==> AssumptionsOk(c, a)
  {
    CostsIff(c, a);
    SignalsIff(c, a);
    ThresholdsIff(c, a);
    HistoryIff(c, a);
  }

  // ------------------------------------------------------------- publishing

  /** A scenario has a name, and a multiplier of each kind for every tier. */
  predicate ScenarioOk(c: Conversions, item: Json) {
    && item.JObj? && TextOf(c, Field(item.fields, "name")) != ""
    && TierMapOk(c, item.fields, "subscription_multipliers_by_tier", None)
    && TierMapOk(c, item.fields, "monthly_price_multipliers_by_tier", None)
  }

  predicate ScenariosOk(c: Conversions, a: Object) {
    forall i | 0 <= i < |ScenarioItems(a)| :: ScenarioOk(c, ScenarioItems(a)[i])
  }

  predicate HostingOk(c: Conversions, a: Object) {
    var inputs := GetOr(a, "self_hosted_tco_inputs", JObj(map[]));
    && inputs.JObj?
    && AmountOk(c, inputs.fields, "annual_staffing_usd") && AmountOk(c, inputs.fields, "annual_oncall_usd")
    && AmountOk(c, inputs.fields, "annual_security_compliance_usd")
    && AmountOk(c, inputs.fields, "annual_infra_ops_usd") && AmountOk(c, inputs.fields, "annual_tooling_usd")
  }

  predicate WindowOk(c: Conversions, telemetry: Object) {
    && Field(telemetry, "window").JObj?
    && var window := Field(telemetry, "window").fields;
    && TextOf(c, Field(window, "label")) != "" && TextOf(c, Field(window, "start")) != ""
    && TextOf(c, Field(window, "end")) != ""
  }

  lemma {:induction false} AddedIff(share: Share, tiers: seq<string>, effective: real, costs: real)
    ensures AddShares(share, tiers, effective, costs).Success? <==> forall tier | tier in tiers :: share(tier).Success?
    decreases tiers
  {
    if tiers != [] {
      assert tiers == [tiers[0]] + tiers[1..];
      if share(tiers[0]).Success? {
        AddedIff(share, tiers[1..], effective + share(tiers[0]).value.0, costs + share(tiers[0]).value.1);
      }
    }
  }

  lemma ShareIff(c: Conversions, b: Baseline, sub: Object, price: Object, tier: string)
    requires tier in b.rows && tier in b.mix && tier in b.factors
    ensures TierShare(c, b, sub, price, tier).Success? <==>
            AtLeast(c, Field(sub, tier), 0.0) && AtLeast(c, Field(price, tier), 0.0)
  {
  }

  lemma SharesIff(c: Conversions, b: Baseline, sub: Object, price: Object, rows: seq<UnitRow>)
    requires StartsFrom(b, rows)
    ensures AddShares(ShareOf(c, b, sub, price), TRACKED_TIERS, 0.0, 0.0).Success? <==>
            forall tier | tier in TIER_NAMES :: AtLeast(c, Field(sub, tier), 0.0) && AtLeast(c, Field(price, tier), 0.0)
  {
    var share := ShareOf(c, b, sub, price);
    AddedIff(share, TRACKED_TIERS, 0.0, 0.0);
    assert TIER_NAMES == TRACKED_TIERS;
    forall tier | tier in TIER_NAMES
      ensures share(tier).Success? <==> AtLeast(c, Field(sub, tier), 0.0) && AtLeast(c, Field(price, tier), 0.0)
    {
      var i :| 0 <= i < 4 && TIER_NAMES[i] == tier;
      assert tier in b.rows;
      ShareIff(c, b, sub, price, tier);
    }
  }

  lemma ScenarioForms(c: Conversions, b: Baseline, item: Json)
    requires item.JObj?
    ensures var sub := Field(item.fields, "subscription_multipliers_by_tier");
            var price := Field(item.fields, "monthly_price_multipliers_by_tier");
            OneScenario(c, b, item).Success? <==>
            && TextOf(c, Field(item.fields, "name")) != "" && sub.JObj? && price.JObj?
            && AddShares(ShareOf(c, b, sub.fields, price.fields), TRACKED_TIERS, 0.0, 0.0).Success?
  {
  }

  lemma ScenarioIff(c: Conversions, b: Baseline, item: Json, rows: seq<UnitRow>)
    requires StartsFrom(b, rows)
    ensures OneScenario(c, b, item).Success? <==> ScenarioOk(c, item)
  {
    if item.JObj? {
      var sub := Field(item.fields, "subscription_multipliers_by_tier");
      var price := Field(item.fields, "monthly_price_multipliers_by_tier");
      ScenarioForms(c, b, item);
      if sub.JObj? && price.JObj? {
        SharesIff(c, b, sub.fields, price.fields, rows);
      }
    }
  }

  lemma {:induction false} CollectedIff(one: Json -> Result<ScenarioRow>, items: seq<Json>, output: seq<ScenarioRow>)
    ensures Collected(one, items, output).Success? <==> forall i | 0 <= i < |items| :: one(items[i]).Success?
    decreases items
  {
    if items != [] {
      assert forall i | 0 < i < |items| :: items[i] == items[1..][i - 1];
      assert forall i | 0 <= i < |items| - 1 :: items[1..][i] == items[i + 1];
      if one(items[0]).Success? {
        CollectedIff(one, items[1..], output + [one(items[0]).value]);
      }
    }
  }

  lemma AllScenariosIff(c: Conversions, b: Baseline, a: Object, rows: seq<UnitRow>)
    requires StartsFrom(b, rows)
    ensures ScenarioRows(c, b, Field(a, "scenario_models")).Success? <==> ScenariosOk(c, a)
  {
    var items := ScenarioItems(a);
    var one: Json -> Result<ScenarioRow> := item => OneScenario(c, b, item);
    ScenariosCollected(c, b, one, items, []);
    CollectedIff(one, items, []);
    forall i | 0 <= i < |items| ensures one(items[i]).Success? <==> ScenarioOk(c, items[i]) {
      ScenarioIff(c, b, items[i], rows);
    }
  }

  lemma {:induction false} TotalIff(c: Conversions, fields: Object, keys: seq<string>, total: real)
    requires Lawful(c)
    ensures SelfHostedTotal(c, fields, keys, total).Success? <==> forall key | key in keys :: AmountOk(c, fields, key)
    decreases keys
  {
    if keys != [] {
      AmountIff(c, fields, keys[0], keys[0]);
      assert keys == [keys[0]] + keys[1..];
      if AmountOk(c, fields, keys[0]) {
        TotalIff(c, fields, keys[1..],
                 total + ParseFloat(c, GetOr(fields, keys[0], JReal(0.0)), keys[0], Some(0.0), None).value);
      }
    }
  }

  lemma HostingIff(c: Conversions, a: Object, effective: real)
    requires Lawful(c)
    ensures HostingOf(c, a, effective).Success? <==> HostingOk(c, a)
  {
    var inputs := GetOr(a, "self_hosted_tco_inputs", JObj(map[]));
    if inputs.JObj? {
      var k := FinanceAssumptions.SELF_HOSTED_KEYS;
      TotalIff(c, inputs.fields, k, 0.0);
      assert k[0] in k && k[1] in k && k[2] in k && k[3] in k && k[4] in k;
    }
  }

  lemma PublishForms(c: Conversions, telemetry: Object, a: Object, p: Parsed, rows: seq<UnitRow>, m: Metrics,
                     totals: Totals)
    requires p.thresholds.requiredCloses >= 1 && Field(telemetry, "pricing_reference").JObj?
    requires PricingFactors(c, Field(telemetry, "pricing_reference").fields, TRACKED_TIERS).Success?
    ensures Publish(c, telemetry, a, p, rows, m, totals).Success? <==>
            && WindowOk(c, telemetry) && p.thresholds.requiredCloses <= |p.history| + 1
            && ScenarioRows(c, BaselineOf(c, telemetry, p.costs, rows), Field(a, "scenario_models")).Success?
            && HostingOf(c, a, totals.effective).Success?
  {
  }

  lemma ClosesRead(c: Conversions, a: Object, p: Parsed)
    requires Lawful(c) && ParseAssumptions(c, a) == Success(p)
    ensures |p.history| == |Items(a, "close_history")|
    ensures Field(a, "thresholds").JObj?
    ensures ClosesWanted(c, Field(a, "thresholds").fields) == Some(p.thresholds.requiredCloses)
  {
    AssumptionsParsed(c, a, p);
  }

  predicate EnoughCloses(c: Conversions, a: Object) {
    && Field(a, "thresholds").JObj?
    && var wanted := ClosesWanted(c, Field(a, "thresholds").fields);
    && wanted.Some? && wanted.value <= |Items(a, "close_history")| + 1
  }

  ghost predicate TelemetryOk(c: Conversions, telemetry: Object) {
    && EconomicsOk(c, telemetry)
    && (forall tier | tier in TIER_NAMES :: PercentilesOk(c, telemetry, tier))
    && WindowOk(c, telemetry)
  }

  lemma PublishIff(c: Conversions, telemetry: Object, a: Object, p: Parsed, rows: seq<UnitRow>, m: Metrics,
                   totals: Totals)
    requires Lawful(c) && ParseAssumptions(c, a) == Success(p) && UnitEconomics(c, telemetry, p.costs) == Success(rows)
    ensures Publish(c, telemetry, a, p, rows, m, totals).Success? <==>
            WindowOk(c, telemetry) && EnoughCloses(c, a) && ScenariosOk(c, a) && HostingOk(c, a)
  {
    FactorsKnown(c, telemetry, p.costs, rows);
    BaselineStarts(c, telemetry, p.costs, rows);
    ClosesRead(c, a, p);
    AllScenariosIff(c, BaselineOf(c, telemetry, p.costs, rows), a, rows);
    HostingIff(c, a, totals.effective);
    PublishForms(c, telemetry, a, p, rows, m, totals);
  }

  /** There is a packet exactly when the telemetry and the assumptions are in order, there are as many
      closes as the margin gate needs, and the scenarios and hosting costs can be read. */
  lemma PacketIff(c: Conversions, telemetry: Object, a: Object)
    requires Lawful(c)
    ensures FinanceOutputs(c, telemetry, a).Success? <==>
            && AssumptionsOk(c, a) && TelemetryOk(c, telemetry)
            && EnoughCloses(c, a) && ScenariosOk(c, a) && HostingOk(c, a)
  {
    AssumptionsIff(c, a);
    if AssumptionsOk(c, a) {
      var p := ParseAssumptions(c, a).value;
      EconomicsIff(c, telemetry, p.costs);
      if EconomicsOk(c, telemetry) {
        var rows := UnitEconomics(c, telemetry, p.costs).value;
        MeasureIff(c, telemetry, p.costs, rows, p.signals, p.multiplier);
        var measured := Measure(c, rows, telemetry, p.signals, p.multiplier);
        if measured.Success? {
          PublishIff(c, telemetry, a, p, rows, measured.value.0, measured.value.1);
        }
      }
    }
  }
}
