/** The rows and decision items that the PKG/FIN generator writes, from the telemetry it reads. */
module PkgFinReading {
  import opened FinanceCommon
  import opened FinanceReading
  import opened JsonValue
  import opened PkgFin
  import opened Rounding
  import opened Text

  // --------------------------------------------------------------- what is read

  /** The fields of the list's item about the tier, which has to be there. */
  predicate HasItem(c: Conversions, telemetry: Object, list: string, tier: string, row: Object) {
    exists i | 0 <= i < |Items(telemetry, list)| ::
      IsFor(c, Items(telemetry, list)[i], tier) && Items(telemetry, list)[i].fields == row
  }

  datatype Numbers = Numbers(mrr: real, factor: real, llm: real, active: int)

  ghost predicate AmountAt(c: Conversions, telemetry: Object, list: string, tier: string, key: string, x: real) {
    exists row: Object | HasItem(c, telemetry, list, tier, row) :: NumberIs(c, row, key, 0.0, x)
  }

  ghost predicate ActiveAt(c: Conversions, telemetry: Object, tier: string, n: int) {
    exists row: Object | HasItem(c, telemetry, "tier_subscription_snapshot", tier, row) ::
      CountIs(c, row, "active_subscriptions", n)
  }

  /** The annual factor of a tier: one without a price or a positive factor, and never more than one. */
  predicate FactorIs(c: Conversions, telemetry: Object, tier: string, factor: real) {
    && Field(telemetry, "pricing_reference").JObj?
    && var price := Field(Field(telemetry, "pricing_reference").fields, tier);
    if !price.JObj? || Field(price.fields, "annual_monthly_factor").JNull? then factor == 1.0
    else
      var read := c.toFloat(Field(price.fields, "annual_monthly_factor"));
      read.Some? && factor == if 0.0 < read.value < 1.0 then read.value else 1.0
  }

  /** What the telemetry says about a tier. */
  ghost predicate NumbersAre(c: Conversions, telemetry: Object, tier: string, n: Numbers) {
    && AmountAt(c, telemetry, "tier_revenue_inputs", tier, "gross_mrr_usd", n.mrr)
    && FactorIs(c, telemetry, tier, n.factor)
    && AmountAt(c, telemetry, "tier_llm_usage", tier, "total_cost_usd", n.llm)
    && ActiveAt(c, telemetry, tier, n.active)
  }

  /** What a tier earns and costs before the last rounding. */
  datatype Sums = Sums(mrr: real, paid: real, infra: real, support: real)

  function PaidFor(mrr: real, factor: real): real {
    Round(factor * mrr, Six)
  }

  function SumsFrom(mrr: real, paid: real, infraPercent: real, active: int, perSubscription: real): Sums {
    Sums(mrr, paid, paid * infraPercent / 100.0, perSubscription * active as real)
  }

  /** The discounted revenue, infrastructure costs as a share of it, and support costs per subscription. */
  function SumsOf(n: Numbers, infraPercent: real, perSubscription: real): Sums {
    SumsFrom(n.mrr, PaidFor(n.mrr, n.factor), infraPercent, n.active, perSubscription)
  }

  /** Every amount is rounded to six digits, and nobody pays more than the revenue. */
  predicate MadeOf(row: EconRow, tier: string, a: Sums, llm: real) {
    && row.tier == tier && row.mrr == Round(a.mrr, Six) && row.llm == Round(llm, Six)
    && row.effective == Round(if a.mrr < a.paid then a.mrr else a.paid, Six)
    && row.infra == Round(a.infra, Six) && row.support == Round(a.support, Six)
  }

  predicate EconSays(row: EconRow, tier: string, n: Numbers, infraPercent: real, perSubscription: real) {
    MadeOf(row, tier, SumsOf(n, infraPercent, perSubscription), n.llm)
  }

  // ------------------------------------------------------------------- proofs

  lemma ItemFound(c: Conversions, telemetry: Object, list: string, m: map<string, Object>, tier: string)
    requires IndexRows(c, Items(telemetry, list), list, map[]) == Success(m) && tier in m
    ensures HasItem(c, telemetry, list, tier, m[tier])
  {
    ItemsOfTier(c, Items(telemetry, list), list, m, tier);
  }

  lemma AmountRead(c: Conversions, telemetry: Object, list: string, m: map<string, Object>, tier: string, key: string,
                   x: real)
    requires Lawful(c) && IndexRows(c, Items(telemetry, list), list, map[]) == Success(m) && tier in m
    requires NonNegative(c, GetOr(m[tier], key, JReal(0.0)), key) == Success(x)
    ensures AmountAt(c, telemetry, list, tier, key, x)
  {
    ItemFound(c, telemetry, list, m, tier);
  }

  lemma ActiveRead(c: Conversions, telemetry: Object, m: map<string, Object>, tier: string, n: int)
    requires Lawful(c) && tier in m
    requires IndexRows(c, Items(telemetry, "tier_subscription_snapshot"), "tier_subscription_snapshot", map[]) ==
             Success(m)
    requires ParseInt(c, GetOr(m[tier], "active_subscriptions", JInt(0)), "active_subscriptions", Some(0)) == Success(n)
    ensures ActiveAt(c, telemetry, tier, n)
  {
    ItemFound(c, telemetry, "tier_subscription_snapshot", m, tier);
  }

  lemma FactorRead(c: Conversions, telemetry: Object, tier: string, factor: real)
    requires Field(telemetry, "pricing_reference").JObj?
    requires Factor(c, Field(Field(telemetry, "pricing_reference").fields, tier)) == Success(factor)
    ensures FactorIs(c, telemetry, tier, factor)
  {
  }

  lemma PercentForms(paid: real, percent: real)
    ensures InfraCogs(paid, percent) == paid * percent / 100.0
  {
  }

  lemma Swapped(x: real, y: real)
    ensures x * y == y * x
  {
  }

  lemma SumsForms(mrr: real, paid: real, infraPercent: real, active: int, perSubscription: real)
    ensures SumsFrom(mrr, paid, infraPercent, active, perSubscription) ==
            Sums(mrr, paid, InfraCogs(paid, infraPercent), SupportCogs(active, perSubscription))
  {
    Swapped(active as real, perSubscription);
    PercentForms(paid, infraPercent);
  }

  lemma RowMade(tier: string, a: Sums, llm: real)
    ensures MadeOf(RoundedRow(tier, a.mrr, a.paid, llm, a.infra, a.support), tier, a, llm)
  {
  }

  lemma RowSaidFrom(tier: string, n: Numbers, paid: real, infraPercent: real, perSubscription: real)
    ensures MadeOf(RoundedRow(tier, n.mrr, paid, n.llm, InfraCogs(paid, infraPercent),
                              SupportCogs(n.active, perSubscription)), tier,
                   SumsFrom(n.mrr, paid, infraPercent, n.active, perSubscription), n.llm)
  {
    SumsForms(n.mrr, paid, infraPercent, n.active, perSubscription);
    RowMade(tier, SumsFrom(n.mrr, paid, infraPercent, n.active, perSubscription), n.llm);
  }

  lemma PaidForms(mrr: real, factor: real)
    ensures PaidFor(mrr, factor) == Discounted(mrr, factor)
  {
    Swapped(mrr, factor);
  }

  lemma RowSaid(tier: string, n: Numbers)
    ensures EconSays(RowOf(tier, n.mrr, n.factor, n.llm, n.active), tier, n, InfraPercent(tier), SupportCost(tier))
  {
    PaidForms(n.mrr, n.factor);
    RowSaidFrom(tier, n, PaidFor(n.mrr, n.factor), InfraPercent(tier), SupportCost(tier));
  }

  /** The shares and costs of the generator, by tier. */
  predicate RatesAre(tier: string, infraPercent: real, perSubscription: real) {
    || (tier == "starter" && infraPercent == 8.0 && perSubscription == 6.0)
    || (tier == "growth" && infraPercent == 7.5 && perSubscription == 9.0)
    || (tier == "pro" && infraPercent == 6.8 && perSubscription == 16.0)
    || (tier == "enterprise" && infraPercent == 6.0 && perSubscription == 30.0)
  }

  ghost predicate RowWritten(c: Conversions, telemetry: Object, tier: string, row: EconRow) {
    exists n: Numbers, infraPercent: real, perSubscription: real ::
      && NumbersAre(c, telemetry, tier, n) && RatesAre(tier, infraPercent, perSubscription)
      && EconSays(row, tier, n, infraPercent, perSubscription)
  }

  predicate Indexes(c: Conversions, telemetry: Object, parts: Rows) {
    && IndexRows(c, Items(telemetry, "tier_revenue_inputs"), "tier_revenue_inputs", map[]) == Success(parts.revenue)
    && IndexRows(c, Items(telemetry, "tier_llm_usage"), "tier_llm_usage", map[]) == Success(parts.llm)
    && IndexRows(c, Items(telemetry, "tier_subscription_snapshot"), "tier_subscription_snapshot", map[]) ==
       Success(parts.subscriptions)
    && Field(telemetry, "pricing_reference") == JObj(parts.pricing)
  }

  lemma TierNumbers(c: Conversions, telemetry: Object, parts: Rows, tier: string) returns (n: Numbers)
    requires Lawful(c) && TierRow(c, parts, tier).Success? && Indexes(c, telemetry, parts)
    ensures NumbersAre(c, telemetry, tier, n)
    ensures TierRow(c, parts, tier) == Success(RowOf(tier, n.mrr, n.factor, n.llm, n.active))
  {
    var mrr := NonNegative(c, GetOr(parts.revenue[tier], "gross_mrr_usd", JReal(0.0)), "gross_mrr_usd").value;
    var factor := Factor(c, Field(parts.pricing, tier)).value;
    var llm := NonNegative(c, GetOr(parts.llm[tier], "total_cost_usd", JReal(0.0)), "total_cost_usd").value;
    var active := ParseInt(c, GetOr(parts.subscriptions[tier], "active_subscriptions", JInt(0)), "active_subscriptions",
                           Some(0)).value;
    AmountRead(c, telemetry, "tier_revenue_inputs", parts.revenue, tier, "gross_mrr_usd", mrr);
    AmountRead(c, telemetry, "tier_llm_usage", parts.llm, tier, "total_cost_usd", llm);
    ActiveRead(c, telemetry, parts.subscriptions, tier, active);
    FactorRead(c, telemetry, tier, factor);
    n := Numbers(mrr, factor, llm, active);
  }

  lemma Rates(tier: string)
    requires tier in SORTED_TIERS
    ensures RatesAre(tier, InfraPercent(tier), SupportCost(tier))
  {
    EveryTier(tier);
  }

  lemma TierWritten(c: Conversions, telemetry: Object, parts: Rows, tier: string)
    requires Lawful(c) && tier in SORTED_TIERS && TierRow(c, parts, tier).Success? && Indexes(c, telemetry, parts)
    ensures RowWritten(c, telemetry, tier, TierRow(c, parts, tier).value)
  {
    var n := TierNumbers(c, telemetry, parts, tier);
    RowSaid(tier, n);
    Rates(tier);
  }

  lemma AllWritten(c: Conversions, telemetry: Object, parts: Rows, make: PkgFin.RowMaker)
    requires Lawful(c) && Indexes(c, telemetry, parts) && (forall tier :: make(tier) == TierRow(c, parts, tier))
    requires BuildRows(make, SORTED_TIERS, []).Success?
    ensures var rows := BuildRows(make, SORTED_TIERS, []).value;
            |rows| == 4 && forall i | 0 <= i < 4 :: RowWritten(c, telemetry, SORTED_TIERS[i], rows[i])
  {
    var rows := BuildRows(make, SORTED_TIERS, []).value;
    PkgFin.BuiltRowsAre(make, SORTED_TIERS, []);
    forall i | 0 <= i < 4 ensures RowWritten(c, telemetry, SORTED_TIERS[i], rows[i]) {
      assert make(SORTED_TIERS[i]) == Success(rows[0 + i]);
      TierWritten(c, telemetry, parts, SORTED_TIERS[i]);
    }
  }

  /** The generator writes one row for each of the four tiers, in the order of their names, made of the
      numbers that the telemetry holds about it. */
  lemma EconomicsRead(c: Conversions, telemetry: Object)
    requires Lawful(c) && Economics(c, telemetry).Success?
    ensures var rows := Economics(c, telemetry).value;
            && |rows| == 4
            && RowWritten(c, telemetry, "enterprise", rows[0]) && RowWritten(c, telemetry, "growth", rows[1])
            && RowWritten(c, telemetry, "pro", rows[2]) && RowWritten(c, telemetry, "starter", rows[3])
  {
    var parts := Rows(
      IndexRows(c, Items(telemetry, "tier_revenue_inputs"), "tier_revenue_inputs", map[]).value,
      IndexRows(c, Items(telemetry, "tier_llm_usage"), "tier_llm_usage", map[]).value,
      IndexRows(c, Items(telemetry, "tier_subscription_snapshot"), "tier_subscription_snapshot", map[]).value,
      Field(telemetry, "pricing_reference").fields);
    var make: PkgFin.RowMaker := tier => TierRow(c, parts, tier);
    AllWritten(c, telemetry, parts, make);
    assert SORTED_TIERS[0] == "enterprise" && SORTED_TIERS[1] == "growth" && SORTED_TIERS[2] == "pro"
           && SORTED_TIERS[3] == "starter";
  }

  // ----------------------------------------------------------- decision items

  /** A generated item: finance or product owns it by its id, three are scheduled thirty days after the
      approval an hour earlier, the others are locked, and eight block the launch. */
  predicate ItemSays(item: Item, id: string, capturedAt: int) {
    && item.id == id && item.approvedAt == capturedAt - 3600
    && item.ownerFunction == (if "FIN-" <= id then "finance" else "product")
    && item.launchBlocking == (id in ["PKG-004", "PKG-005", "PKG-009", "PKG-011", "PKG-012",
                                      "FIN-001", "FIN-002", "FIN-003"])
    && (if id in ["PKG-029", "PKG-030", "PKG-031"]
        then item.resolution == "scheduled_postlaunch" && item.criteria != ""
             && item.targetDate == Some((capturedAt - 3600 + 30 * 86400) / 86400)
        else item.resolution == "locked_prelaunch" && item.targetDate == None)
  }

  lemma ItemWritten(x: Texts, id: string, capturedAt: int)
    ensures ItemSays(BuildItem(x, id, capturedAt), id, capturedAt)
  {
  }

  /** The generated backlog has one item for each of the thirty ids, in order. */
  lemma ItemsWritten(x: Texts, capturedAt: int)
    ensures var items := DecisionItems(x, capturedAt);
            |items| == |REQUIRED_IDS| && forall i | 0 <= i < |items| :: ItemSays(items[i], REQUIRED_IDS[i], capturedAt)
  {
    var make := id => BuildItem(x, id, capturedAt);
    ItemsBuilt(make, REQUIRED_IDS);
    forall i | 0 <= i < |REQUIRED_IDS| ensures ItemSays(DecisionItems(x, capturedAt)[i], REQUIRED_IDS[i], capturedAt) {
      ItemWritten(x, REQUIRED_IDS[i], capturedAt);
    }
  }
}
