/** The derived assumptions in terms of the telemetry, number by number. */
module FinanceDerivation {
  import opened FinanceAccepts
  import opened FinanceAssumptions
  import opened FinanceCommon
  import opened FinanceEngine
  import opened FinanceGates
  import opened FinancePublished
  import opened FinanceReading
  import opened FinanceScenarios
  import opened JsonValue
  import opened Rounding
  import opened Text

  // ---------------------------------------------------------- reading loosely

  /** `str(row.get("tier", "")).strip().lower()` */
  predicate LooselyFor(c: Conversions, item: Json, tier: string) {
    && item.JObj? && "tier" in item.fields
    && Lower(Strip(if item.fields["tier"].JStr? then item.fields["tier"].s else c.show(item.fields["tier"]))) == tier
  }

  /** The fields of the item for the tier; none when there is no such item. */
  predicate LooseRowIs(c: Conversions, items: seq<Json>, tier: string, row: Object) {
    if exists i | 0 <= i < |items| :: LooselyFor(c, items[i], tier)
    then exists i | 0 <= i < |items| :: LooselyFor(c, items[i], tier) && items[i].fields == row
    else row == map[]
  }

  /** What the derivation keeps of a tier's telemetry. */
  datatype Facts = Facts(price: real, factor: real, active: int, dunning: int, llm: real)

  function Known(x: Option<real>, default: real): real {
    if x.Some? then x.value else default
  }

  function AtLeastZero(n: Option<int>): int {
    if n.Some? && n.value > 0 then n.value else 0
  }

  /** The value, or the nearer bound when it is outside. */
  function Within(x: real, low: real, high: real): real {
    if x < low then low else if x > high then high else x
  }

  /** The numbers of a tier: what cannot be read counts as its default, and what is out of range is moved
      to the nearest sensible value. */
  ghost predicate FactsAre(c: Conversions, telemetry: Object, tier: string, f: Facts) {
    && Field(telemetry, "pricing_reference").JObj?
    && var pricing := Field(Field(telemetry, "pricing_reference").fields, tier);
    && pricing.JObj?
    && f.price == Known(c.toFloat(Field(pricing.fields, "monthly_price_usd")), 0.0)
    && f.factor == Within(Known(c.toFloat(Field(pricing.fields, "annual_monthly_factor")), 1.0), 0.5, 1.0)
    && SubscriptionFacts(c, Items(telemetry, "tier_subscription_snapshot"), tier, f)
    && CostFacts(c, Items(telemetry, "tier_llm_usage"), tier, f)
  }

  ghost predicate SubscriptionFacts(c: Conversions, items: seq<Json>, tier: string, f: Facts) {
    exists row: Object | LooseRowIs(c, items, tier, row) ::
      && f.active == AtLeastZero(c.toInt(Field(row, "active_subscriptions")))
      && f.dunning == AtLeastZero(c.toInt(Field(row, "dunning_events")))
  }

  ghost predicate CostFacts(c: Conversions, items: seq<Json>, tier: string, f: Facts) {
    exists row: Object | LooseRowIs(c, items, tier, row) ::
      var cost := Known(c.toFloat(Field(row, "total_cost_usd")), 0.0);
      f.llm == if cost > 0.0 then cost else 0.0
  }

  lemma ClampForms(x: real, low: real, high: real)
    requires low <= high
    ensures Clamp(x, low, high) == Within(x, low, high)
  {
  }

  /** Each row that names a tier is found under it. */
  ghost predicate LooseIndexed(c: Conversions, items: seq<Json>, m: map<string, Object>) {
    && (forall i | 0 <= i < |items| :: IndexedLoosely(c, items[i], m))
    && (forall tier | tier in m :: NamedLoosely(c, items, tier))
  }

  predicate IndexedLoosely(c: Conversions, item: Json, m: map<string, Object>) {
    && item.JObj?
    && var tier := LooseTier(c, item.fields);
    && (tier == "" || (tier in m && m[tier] == item.fields))
  }

  ghost predicate NamedLoosely(c: Conversions, items: seq<Json>, tier: string) {
    tier != "" && exists i | 0 <= i < |items| :: items[i].JObj? && LooseTier(c, items[i].fields) == tier
  }

  lemma NamedStays(c: Conversions, done: seq<Json>, item: Json, tier: string)
    requires NamedLoosely(c, done, tier)
    ensures NamedLoosely(c, done + [item], tier)
  {
    var i :| 0 <= i < |done| && done[i].JObj? && LooseTier(c, done[i].fields) == tier;
    var all := done + [item];
    assert all[i].JObj? && LooseTier(c, all[i].fields) == tier;
  }

  lemma LooseNext(c: Conversions, done: seq<Json>, item: Json, m: map<string, Object>)
    requires LooseIndexed(c, done, m) && item.JObj?
    requires LooseTier(c, item.fields) !in m
    ensures var tier := LooseTier(c, item.fields);
            LooseIndexed(c, done + [item], if tier == "" then m else m[tier := item.fields])
  {
    var all, tier := done + [item], LooseTier(c, item.fields);
    var next := if tier == "" then m else m[tier := item.fields];
    forall i | 0 <= i < |all| ensures IndexedLoosely(c, all[i], next) {
      if i < |done| {
        assert all[i] == done[i] && IndexedLoosely(c, done[i], m);
      }
    }
    assert all[|done|] == item;
    forall t | t in next ensures NamedLoosely(c, all, t) {
      if t in m {
        NamedStays(c, done, item, t);
      }
    }
  }

  lemma {:induction false} LooseIndexFrom(c: Conversions, done: seq<Json>, rest: seq<Json>, field: string,
                                          m: map<string, Object>)
    requires LooseIndexed(c, done, m) && LooseIndex(c, rest, field, m).Success?
    ensures LooseIndexed(c, done + rest, LooseIndex(c, rest, field, m).value)
    decreases rest
  {
    if rest == [] {
      assert done + rest == done;
    } else {
      var tier := LooseTier(c, rest[0].fields);
      if tier == "" {
        EmptyNotIndexed(c, done, m);
      }
      LooseNext(c, done, rest[0], m);
      assert done + [rest[0]] + rest[1..] == done + rest;
      LooseIndexFrom(c, done + [rest[0]], rest[1..], field, if tier == "" then m else m[tier := rest[0].fields]);
    }
  }

  lemma EmptyNotIndexed(c: Conversions, items: seq<Json>, m: map<string, Object>)
    requires LooseIndexed(c, items, m)
    ensures "" !in m
  {
    forall tier | tier in m ensures tier != "" {
      assert NamedLoosely(c, items, tier);
    }
  }

  lemma LooseIff(c: Conversions, fields: Object, tier: string)
    requires tier != ""
    ensures LooseTier(c, fields) == tier <==> LooselyFor(c, JObj(fields), tier)
  {
    StripOfTrimmed("");
  }

  /** The loose index finds the row of a tier. */
  lemma LooseIndexFinds(c: Conversions, items: seq<Json>, field: string, m: map<string, Object>, tier: string)
    requires LooseIndex(c, items, field, map[]) == Success(m) && tier != ""
    ensures LooseRowIs(c, items, tier, ObjectAt(m, tier))
  {
    assert [] + items == items;
    LooseIndexFrom(c, [], items, field, map[]);
    forall i | 0 <= i < |items|
      ensures items[i].JObj? && (LooseTier(c, items[i].fields) == tier <==> LooselyFor(c, items[i], tier))
    {
      assert IndexedLoosely(c, items[i], m);
      LooseIff(c, items[i].fields, tier);
    }
    if tier in m {
      assert NamedLoosely(c, items, tier);
      var i :| 0 <= i < |items| && items[i].JObj? && LooseTier(c, items[i].fields) == tier;
      assert LooselyFor(c, items[i], tier) && items[i].fields == m[tier];
    }
  }

  // --------------------------------------------------------------- the formulas

  /** The share of annual billing grows with the subscriptions and the discount it brings. */
  function MixFor(tier: string, f: Facts): real {
    var byNumber := f.active as real / 400.0;
    var byDiscount := 0.8 * (1.0 - f.factor);
    Round(Within(0.42 + (if byNumber > 0.25 then 0.25 else byNumber) + (if byDiscount > 0.12 then 0.12 else byDiscount)
                 - (if tier == "enterprise" then 0.12 else 0.0), 0.25, 0.82), Two)
  }

  function GrossFor(f: Facts): real {
    if f.price > 0.0 then f.active as real * f.price else 0.0
  }

  /** The infrastructure share grows with what the models cost of the revenue. */
  function InfraFor(tier: string, f: Facts): real {
    var byModels := if GrossFor(f) > 0.0 then 35.0 * (f.llm / GrossFor(f)) else 0.0;
    Round(Within(5.0 + byModels + (if tier == "starter" || tier == "growth" then 0.3 else 0.0), 4.5, 15.0), Two)
  }

  function AtLeastOne(n: int): real {
    if n < 1 then 1.0 else n as real
  }

  function SupportBefore(f: Facts): real {
    4.0 + 0.018 * f.price + 6.0 * (f.dunning as real / AtLeastOne(f.active))
  }

  function Lifted(tier: string, x: real): real {
    if tier == "starter" then x else if tier == "growth" then 1.2 * x else if tier == "pro" then 1.5 * x else 1.8 * x
  }

  /** Support costs grow with the price and with the share of dunning events, more so for higher tiers. */
  function SupportFor(tier: string, f: Facts): real {
    Round(Within(Lifted(tier, SupportBefore(f)), 4.0, 42.0), Two)
  }

  function FactsOf(i: LooseInputs): Facts {
    Facts(i.price, i.factor, i.active, i.dunning, i.llmCost)
  }

  lemma MixForms(tier: string, i: LooseInputs)
    requires 0.5 <= i.factor <= 1.0
    ensures AnnualMix(tier, i) == MixFor(tier, FactsOf(i))
  {
    ClampForms(BaseMix(tier, i), 0.25, 0.82);
  }

  lemma GrossLooks(i: LooseInputs)
    requires 0 <= i.active
    ensures LooseGross(i) == GrossFor(FactsOf(i))
  {
    if i.price > 0.0 {
      ProductNonNegative(i.price, i.active as real);
    } else {
      ProductNonNegative(-i.price, i.active as real);
    }
  }

  lemma InfraForms(tier: string, i: LooseInputs)
    requires 0 <= i.active
    ensures InfraPercent(tier, i) == InfraFor(tier, FactsOf(i))
  {
    GrossLooks(i);
    ClampForms(BaseInfra(tier, i), 4.5, 15.0);
  }

  lemma LiftForms(tier: string, x: real)
    ensures x * TierLift(tier) == Lifted(tier, x)
  {
  }

  lemma RateForms(i: LooseInputs)
    ensures 4.0 + i.price * 0.018 + i.dunning as real / Max(i.active as real, 1.0) * 6.0 == SupportBefore(FactsOf(i))
  {
  }

  lemma SupportBase(tier: string, i: LooseInputs)
    ensures BaseSupport(tier, i) == Lifted(tier, SupportBefore(FactsOf(i)))
  {
    RateForms(i);
    LiftForms(tier, SupportBefore(FactsOf(i)));
  }

  lemma SupportIsFor(tier: string, i: LooseInputs)
    ensures SupportPerSubscription(tier, i) == SupportFor(tier, FactsOf(i))
  {
    SupportBase(tier, i);
    ClampForms(BaseSupport(tier, i), 4.0, 42.0);
  }

  lemma FactsRead(c: Conversions, telemetry: Object, subscriptions: map<string, Object>, llm: map<string, Object>,
                  tier: string)
    requires Field(telemetry, "pricing_reference").JObj?
    requires Field(Field(telemetry, "pricing_reference").fields, tier).JObj? && tier != ""
    requires LooseIndex(c, Items(telemetry, "tier_subscription_snapshot"), "tier_subscription_snapshot", map[]) ==
             Success(subscriptions)
    requires LooseIndex(c, Items(telemetry, "tier_llm_usage"), "tier_llm_usage", map[]) == Success(llm)
    ensures var pricing := Field(Field(telemetry, "pricing_reference").fields, tier).fields;
            FactsAre(c, telemetry, tier,
                     FactsOf(ReadInputs(c, pricing, ObjectAt(subscriptions, tier), ObjectAt(llm, tier))))
  {
    var pricing := Field(Field(telemetry, "pricing_reference").fields, tier).fields;
    LooseIndexFinds(c, Items(telemetry, "tier_subscription_snapshot"), "tier_subscription_snapshot", subscriptions,
                    tier);
    LooseIndexFinds(c, Items(telemetry, "tier_llm_usage"), "tier_llm_usage", llm, tier);
    ClampForms(SafeFloat(c, Field(pricing, "annual_monthly_factor"), 1.0), 0.5, 1.0);
  }

  // ------------------------------------------------------------ the tier loop

  /** What the loop keeps of a tier. */
  predicate TierDerived(d: Derivation, tier: string, f: Facts) {
    && tier in d.mix && tier in d.infra && tier in d.support && tier in d.active
    && d.mix[tier] == MixFor(tier, f) && d.infra[tier] == InfraFor(tier, f)
    && d.support[tier] == SupportFor(tier, f) && d.active[tier] == f.active
  }

  type FactsBy = string -> Facts

  function FactsIn(c: Conversions, pricing: Object, subscriptions: map<string, Object>, llm: map<string, Object>)
    : FactsBy
  {
    tier => FactsOf(ReadInputs(c, if Field(pricing, tier).JObj? then Field(pricing, tier).fields else map[],
                               ObjectAt(subscriptions, tier), ObjectAt(llm, tier)))
  }

  lemma OneTierDerived(c: Conversions, pricing: Object, subscriptions: map<string, Object>, llm: map<string, Object>,
                       tier: string, d: Derivation)
    requires DeriveTier(c, pricing, subscriptions, llm, tier, d).Success?
    ensures var r, f := DeriveTier(c, pricing, subscriptions, llm, tier, d).value,
                        FactsIn(c, pricing, subscriptions, llm)(tier);
            && Field(pricing, tier).JObj? && TierDerived(r, tier, f)
            && r.llm == d.llm + f.llm && r.gross == d.gross + GrossFor(f)
  {
    var i := ReadInputs(c, Field(pricing, tier).fields, ObjectAt(subscriptions, tier), ObjectAt(llm, tier));
    MixForms(tier, i);
    InfraForms(tier, i);
    SupportIsFor(tier, i);
    GrossLooks(i);
  }

  lemma OtherTiersKept(c: Conversions, pricing: Object, subscriptions: map<string, Object>, llm: map<string, Object>,
                       tier: string, d: Derivation, other: string, g: Facts)
    requires DeriveTier(c, pricing, subscriptions, llm, tier, d).Success?
    requires other != tier && TierDerived(d, other, g)
    ensures TierDerived(DeriveTier(c, pricing, subscriptions, llm, tier, d).value, other, g)
  {
  }

  function SumFacts(facts: FactsBy, tiers: seq<string>, amount: Facts -> real): real {
    if tiers == [] then 0.0 else amount(facts(tiers[0])) + SumFacts(facts, tiers[1..], amount)
  }

  function LlmIn(f: Facts): real {
    f.llm
  }

  predicate Distinct(tiers: seq<string>) {
    forall i, k | 0 <= i < k < |tiers| :: tiers[i] != tiers[k]
  }

  lemma {:induction false} TiersDerived(c: Conversions, pricing: Object, subscriptions: map<string, Object>,
                                        llm: map<string, Object>, tiers: seq<string>, d: Derivation)
    requires DeriveTiers(c, pricing, subscriptions, llm, tiers, d).Success? && Distinct(tiers)
    ensures var r, facts := DeriveTiers(c, pricing, subscriptions, llm, tiers, d).value,
                            FactsIn(c, pricing, subscriptions, llm);
            && (forall tier | tier in tiers :: Field(pricing, tier).JObj? && TierDerived(r, tier, facts(tier)))
            && (forall tier, g | tier !in tiers && TierDerived(d, tier, g) :: TierDerived(r, tier, g))
            && r.llm == d.llm + SumFacts(facts, tiers, LlmIn)
            && r.gross == d.gross + SumFacts(facts, tiers, GrossFor)
    decreases tiers
  {
    if tiers != [] {
      var next := DeriveTier(c, pricing, subscriptions, llm, tiers[0], d).value;
      OneTierDerived(c, pricing, subscriptions, llm, tiers[0], d);
      forall other, g | other != tiers[0] && TierDerived(d, other, g) ensures TierDerived(next, other, g) {
        OtherTiersKept(c, pricing, subscriptions, llm, tiers[0], d, other, g);
      }
      assert forall i | 0 <= i < |tiers| - 1 :: tiers[1..][i] == tiers[i + 1];
      TiersDerived(c, pricing, subscriptions, llm, tiers[1..], next);
      assert forall tier :: tier in tiers <==> tier == tiers[0] || tier in tiers[1..];
    }
  }

  // --------------------------------------------------------- what is derived

  /** A conversion signal: how far the larger plan's share of subscriptions is from its baseline. */
  function SignalFor(below: int, above: int, baseline: real): real {
    Round(Within(0.8 * (above as real / AtLeastOne(below) - baseline), -3.0, 3.0), Four)
  }

  /** The stress multiplier grows with what the models cost of the revenue. */
  function MultiplierFor(llm: real, gross: real): real {
    Round(Within(1.5 + 2.0 * (llm / (if gross < 1.0 then 1.0 else gross)), 1.4, 2.5), Two)
  }

  function DunningFor(support: map<string, real>): real
    requires forall tier | tier in TIER_NAMES :: tier in support
  {
    Round(Within(0.35 * (support["starter"] + support["growth"] + support["pro"] + support["enterprise"]), 12.0, 45.0),
          Two)
  }

  /** The thresholds leave a fixed slack to the measured values, inside absolute bounds. */
  predicate ThresholdsFollow(m: Metrics, t: Thresholds) {
    && t.minBlended == Within(m.blended - 2.5, 60.0, 86.0)
    && t.minStress == Within(m.stress - 3.0, 45.0, 86.0)
    && t.maxDiscount == (if m.discount <= 9.0 then 12.0 else Within(m.discount + 3.0, 10.0, 35.0))
    && t.maxP95 == (if m.p95 <= 10.0 then Within(m.p95 + 2.0, 6.0, 35.0)
                    else Round(Within(1.2 * m.p95, 6.0, 35.0), Two))
    && t.minGrowthToPro == Within(m.growthToPro - 0.2, -5.0, 5.0)
    && t.minProToEnterprise == Within(m.proToEnterprise - 0.2, -5.0, 5.0)
    && t.requiredCloses == 2
  }

  lemma Shifted(x: real, step: real, low: real, high: real, digits: Digits)
    requires OnGrid(x, digits) && OnGrid(step, digits) && OnGrid(low, digits) && OnGrid(high, digits) && low <= high
    ensures Round(Clamp(x + step, low, high), digits) == Within(x + step, low, high)
  {
    ClampForms(x + step, low, high);
    GridSum(x, step, digits);
    RoundGrid(Within(x + step, low, high), digits);
  }

  lemma Grid(hundredths: int)
    ensures OnGrid(hundredths as real / 100.0, Two)
  {
    assert Scaled(hundredths as real / 100.0, Two) == hundredths as real;
  }

  lemma BlendedFollows(x: real)
    requires OnGrid(x, Two)
    ensures MinBlended(x) == Within(x - 2.5, 60.0, 86.0)
  {
    Grid(-250);
    Grid(6000);
    Grid(8600);
    Shifted(x, -2.5, 60.0, 86.0, Two);
  }

  lemma StressFollows(x: real)
    requires OnGrid(x, Two)
    ensures MinStress(x) == Within(x - 3.0, 45.0, 86.0)
  {
    Grid(-300);
    Grid(4500);
    Grid(8600);
    Shifted(x, -3.0, 45.0, 86.0, Two);
  }

  lemma DiscountFollows(x: real)
    requires OnGrid(x, Two)
    ensures MaxDiscount(x) == if x <= 9.0 then 12.0 else Within(x + 3.0, 10.0, 35.0)
  {
    Grid(300);
    Grid(1000);
    Grid(1200);
    Grid(3500);
    Shifted(x, 3.0, 10.0, 35.0, Two);
    RoundGrid(12.0, Two);
  }

  lemma P95Follows(x: real)
    requires OnGrid(x, Two) && 0.0 <= x
    ensures MaxP95(x) == if x <= 10.0 then Within(x + 2.0, 6.0, 35.0) else Round(Within(1.2 * x, 6.0, 35.0), Two)
  {
    Grid(200);
    Grid(600);
    Grid(3500);
    Shifted(x, 2.0, 6.0, 35.0, Two);
    ClampForms(1.2 * x, 6.0, 35.0);
  }

  lemma SignalFollows(x: real)
    requires OnGrid(x, Four)
    ensures MinSignal(x) == Within(x - 0.2, -5.0, 5.0)
  {
    assert Scaled(-0.2, Four) == (-2000) as real;
    WholeOnGrid(-5, Four);
    WholeOnGrid(5, Four);
    Shifted(x, -0.2, -5.0, 5.0, Four);
  }

  lemma ThresholdsDerived(m: Metrics)
    requires Published(m) && 0.0 <= m.p95
    ensures ThresholdsFollow(m, DeriveThresholds(m))
  {
    BlendedFollows(m.blended);
    StressFollows(m.stress);
    DiscountFollows(m.discount);
    P95Follows(m.p95);
    SignalFollows(m.growthToPro);
    SignalFollows(m.proToEnterprise);
  }

  /** The synthesized close lies a point above the current margin and at least half a point above the
      floor. */
  function PriorFor(blended: real, floor: real): real {
    Within(if blended + 1.0 < floor + 0.5 then floor + 0.5 else blended + 1.0, 45.0, 95.0)
  }

  lemma PriorFollows(blended: real)
    requires OnGrid(blended, Two)
    ensures PriorBlended(blended, MinBlended(blended)) == PriorFor(blended, MinBlended(blended))
  {
    var floor := MinBlended(blended);
    MinBlendedInRange(blended);
    Grid(50);
    Grid(100);
    Grid(4500);
    Grid(9500);
    Shifted(blended, 1.0, 45.0, 95.0, Two);
    Shifted(floor, 0.5, 45.0, 95.0, Two);
  }

  lemma SignalForms(below: int, above: int, baseline: real)
    ensures ConversionSignal(below, above, baseline) == SignalFor(below, above, baseline)
  {
    var ratio := above as real / AtLeastOne(below);
    assert (ratio - baseline) * 0.8 == 0.8 * (ratio - baseline);
    ClampForms((ratio - baseline) * 0.8, -3.0, 3.0);
  }

  lemma MultiplierForms(d: Derivation)
    ensures StressMultiplier(d) == MultiplierFor(d.llm, d.gross)
  {
    var share := d.llm / Max(d.gross, 1.0);
    assert share * 2.0 == 2.0 * share;
    ClampForms(1.5 + d.llm / Max(d.gross, 1.0) * 2.0, 1.4, 2.5);
  }

  lemma DunningForms(d: Derivation)
    requires Filled(d)
    ensures CostsOf(d).supportPerDunning == DunningFor(d.support)
  {
    var sum := d.support["starter"] + d.support["growth"] + d.support["pro"] + d.support["enterprise"];
    assert MeanSupport(d.support) * 1.4 == 0.35 * sum;
    ClampForms(MeanSupport(d.support) * 1.4, 12.0, 45.0);
  }

  // ------------------------------------------------------------- main result

  /** The costs by tier, the signals and the multiplier follow from the numbers of the four tiers. */
  ghost predicate TiersSay(c: Conversions, telemetry: Object, a: Assumptions, facts: FactsBy) {
    && EachTierSays(c, telemetry, a.costs, facts)
    && a.costs.supportPerDunning == DunningFor(a.costs.supportPerSubscription)
    && a.signals.growthToPro == SignalFor(facts("growth").active, facts("pro").active, 0.25)
    && a.signals.proToEnterprise == SignalFor(facts("pro").active, facts("enterprise").active, 0.15)
    && a.multiplier == MultiplierFor(SumFacts(facts, TIER_NAMES, LlmIn), SumFacts(facts, TIER_NAMES, GrossFor))
  }

  ghost predicate EachTierSays(c: Conversions, telemetry: Object, costs: CostModel, facts: FactsBy) {
    forall tier | tier in TIER_NAMES ::
      FactsAre(c, telemetry, tier, facts(tier)) && TierSays(costs, tier, facts(tier))
  }

  predicate TierSays(costs: CostModel, tier: string, f: Facts) {
    && HasTier(costs, tier)
    && costs.annualMix[tier] == MixFor(tier, f) && costs.infraPercent[tier] == InfraFor(tier, f)
    && costs.supportPerSubscription[tier] == SupportFor(tier, f)
  }

  function Larger(x: real, y: real): real {
    if x < y then y else x
  }

  /** Each cost of hosting it oneself is a share of the monthly revenue, with a least amount. */
  predicate HostingFollows(hosting: Object, monthly: real) {
    && Field(hosting, "annual_staffing_usd") == JReal(Round(Larger(220000.0, 3.36 * monthly), Two))
    && Field(hosting, "annual_oncall_usd") == JReal(Round(Larger(70000.0, 0.66 * monthly), Two))
    && Field(hosting, "annual_security_compliance_usd") == JReal(Round(Larger(45000.0, 0.42 * monthly), Two))
    && Field(hosting, "annual_infra_ops_usd") == JReal(Round(Larger(55000.0, 0.54 * monthly), Two))
    && Field(hosting, "annual_tooling_usd") == JReal(Round(Larger(22000.0, 0.216 * monthly), Two))
  }

  lemma HostingKeys(costs: seq<real>)
    requires |costs| == 5
    ensures var m := SelfHostedJson(costs).fields;
            && Field(m, "annual_staffing_usd") == JReal(costs[0])
            && Field(m, "annual_oncall_usd") == JReal(costs[1])
            && Field(m, "annual_security_compliance_usd") == JReal(costs[2])
            && Field(m, "annual_infra_ops_usd") == JReal(costs[3])
            && Field(m, "annual_tooling_usd") == JReal(costs[4])
  {
    assert forall i | 0 <= i < 5 :: SELF_HOSTED_KEYS[i] in SelfHostedJson(costs).fields;
  }

  lemma HostingDerived(monthly: real)
    ensures HostingFollows(SelfHostedJson(SelfHosted(monthly)).fields, monthly)
  {
    HostingKeys(SelfHosted(monthly));
  }

  lemma LoopSteps(c: Conversions, telemetry: Object, clock: Clock)
    returns (subscriptions: map<string, Object>, llm: map<string, Object>, d: Derivation)
    requires Derive(c, telemetry, clock).Success?
    ensures Field(telemetry, "pricing_reference").JObj?
    ensures LooseIndex(c, Items(telemetry, "tier_subscription_snapshot"), "tier_subscription_snapshot", map[]) ==
            Success(subscriptions)
    ensures LooseIndex(c, Items(telemetry, "tier_llm_usage"), "tier_llm_usage", map[]) == Success(llm)
    ensures DeriveTiers(c, Field(telemetry, "pricing_reference").fields, subscriptions, llm, TRACKED_TIERS,
                        NOTHING_DERIVED) == Success(d)
    ensures Filled(d) && Conclude(c, telemetry, clock, d) == Derive(c, telemetry, clock)
  {
    var pricing := Field(telemetry, "pricing_reference").fields;
    subscriptions := LooseIndex(c, Items(telemetry, "tier_subscription_snapshot"), "tier_subscription_snapshot",
                                map[]).value;
    llm := LooseIndex(c, Items(telemetry, "tier_llm_usage"), "tier_llm_usage", map[]).value;
    d := DeriveTiers(c, pricing, subscriptions, llm, TRACKED_TIERS, NOTHING_DERIVED).value;
    DerivedTiers(c, pricing, subscriptions, llm, TRACKED_TIERS, NOTHING_DERIVED);
  }

  lemma NamesDistinct()
    ensures Distinct(TRACKED_TIERS) && TIER_NAMES == TRACKED_TIERS && forall tier | tier in TIER_NAMES :: tier != ""
  {
  }

  /** A tier after the loop, and what it was made of. */
  lemma TierAfterLoop(c: Conversions, telemetry: Object, subscriptions: map<string, Object>, llm: map<string, Object>,
                      d: Derivation, tier: string)
    requires Field(telemetry, "pricing_reference").JObj? && tier in TIER_NAMES
    requires LooseIndex(c, Items(telemetry, "tier_subscription_snapshot"), "tier_subscription_snapshot", map[]) ==
             Success(subscriptions)
    requires LooseIndex(c, Items(telemetry, "tier_llm_usage"), "tier_llm_usage", map[]) == Success(llm)
    requires DeriveTiers(c, Field(telemetry, "pricing_reference").fields, subscriptions, llm, TRACKED_TIERS,
                         NOTHING_DERIVED) == Success(d)
    ensures var facts := FactsIn(c, Field(telemetry, "pricing_reference").fields, subscriptions, llm);
            FactsAre(c, telemetry, tier, facts(tier)) && TierDerived(d, tier, facts(tier))
  {
    NamesDistinct();
    TiersDerived(c, Field(telemetry, "pricing_reference").fields, subscriptions, llm, TRACKED_TIERS, NOTHING_DERIVED);
    FactsRead(c, telemetry, subscriptions, llm, tier);
  }

  lemma SumsAfterLoop(c: Conversions, pricing: Object, subscriptions: map<string, Object>, llm: map<string, Object>,
                      d: Derivation)
    requires DeriveTiers(c, pricing, subscriptions, llm, TRACKED_TIERS, NOTHING_DERIVED) == Success(d)
    ensures var facts := FactsIn(c, pricing, subscriptions, llm);
            d.llm == SumFacts(facts, TIER_NAMES, LlmIn) && d.gross == SumFacts(facts, TIER_NAMES, GrossFor)
  {
    NamesDistinct();
    TiersDerived(c, pricing, subscriptions, llm, TRACKED_TIERS, NOTHING_DERIVED);
  }

  lemma TierKept(d: Derivation, tier: string, f: Facts)
    requires Filled(d) && TierDerived(d, tier, f)
    ensures TierSays(CostsOf(d), tier, f) && tier in d.active && d.active[tier] == f.active
  {
  }

  lemma SignalsKept(d: Derivation)
    requires Filled(d)
    ensures SignalsOf(d).growthToPro == SignalFor(d.active["growth"], d.active["pro"], 0.25)
    ensures SignalsOf(d).proToEnterprise == SignalFor(d.active["pro"], d.active["enterprise"], 0.15)
  {
    SignalForms(d.active["growth"], d.active["pro"], 0.25);
    SignalForms(d.active["pro"], d.active["enterprise"], 0.15);
  }

  lemma ConcludedCosts(c: Conversions, telemetry: Object, clock: Clock, d: Derivation)
    requires Filled(d) && Conclude(c, telemetry, clock, d).Success?
    ensures var a := Conclude(c, telemetry, clock, d).value;
            a.costs == CostsOf(d) && a.signals == SignalsOf(d) && a.multiplier == StressMultiplier(d)
  {
  }

  lemma TiersRead(c: Conversions, telemetry: Object, clock: Clock) returns (facts: FactsBy)
    requires Derive(c, telemetry, clock).Success?
    ensures TiersSay(c, telemetry, Derive(c, telemetry, clock).value, facts)
  {
    var subscriptions, llm, d := LoopSteps(c, telemetry, clock);
    var pricing := Field(telemetry, "pricing_reference").fields;
    facts := FactsIn(c, pricing, subscriptions, llm);
    forall tier | tier in TIER_NAMES
      ensures FactsAre(c, telemetry, tier, facts(tier)) && TierSays(CostsOf(d), tier, facts(tier))
      ensures tier in d.active && d.active[tier] == facts(tier).active
    {
      TierAfterLoop(c, telemetry, subscriptions, llm, d, tier);
      TierKept(d, tier, facts(tier));
    }
    assert "growth" in TIER_NAMES && "pro" in TIER_NAMES && "enterprise" in TIER_NAMES;
    ConcludedCosts(c, telemetry, clock, d);
    SumsAfterLoop(c, pricing, subscriptions, llm, d);
    DunningForms(d);
    MultiplierForms(d);
    SignalsKept(d);
  }

  /** What follows from the costs. */
  ghost predicate MeasuresSay(c: Conversions, telemetry: Object, clock: Clock, a: Assumptions, rows: seq<UnitRow>,
                              m: Metrics, totals: Totals) {
    && RowsSay(c, telemetry, a.costs, rows) && MetricsSay(m, rows, a.signals, a.multiplier) && TotalsSay(totals, rows)
    && ThresholdsFollow(m, a.thresholds)
    && a.prior == Close(clock.previousMonth, PriorFor(m.blended, a.thresholds.minBlended))
  }

  lemma MeasuresFollow(c: Conversions, telemetry: Object, clock: Clock, a: Assumptions, rows: seq<UnitRow>, m: Metrics,
                       totals: Totals)
    requires Lawful(c) && DerivedFrom(c, telemetry, clock, a, rows, m, totals) && DerivedInRange(a)
    ensures MeasuresSay(c, telemetry, clock, a, rows, m, totals)
  {
    AllRowsRead(c, telemetry, a.costs);
    MeasuredSays(c, rows, telemetry, a.signals, a.multiplier);
    DerivedMetrics(c, telemetry, a, rows, m, totals);
    ThresholdsDerived(m);
    PriorFollows(m.blended);
  }

  lemma HostingWritten(a: Assumptions, monthly: real)
    requires a.selfHosted == SelfHosted(monthly)
    ensures Field(ToJson(a), "self_hosted_tco_inputs").JObj?
    ensures HostingFollows(Field(ToJson(a), "self_hosted_tco_inputs").fields, monthly)
  {
    HostingDerived(monthly);
    ToJsonFields(a);
  }

  /** Everything that is derived, from the telemetry: the costs, signals and multiplier from the numbers of
      the tiers, and the thresholds, the synthesized close and the hosting costs from what these costs make
      of the telemetry. */
  lemma DerivationSays(c: Conversions, telemetry: Object, clock: Clock)
    returns (facts: FactsBy, rows: seq<UnitRow>, m: Metrics, totals: Totals)
    requires Lawful(c) && Derive(c, telemetry, clock).Success?
    ensures var a := Derive(c, telemetry, clock).value;
            && TiersSay(c, telemetry, a, facts)
            && MeasuresSay(c, telemetry, clock, a, rows, m, totals)
            && Field(ToJson(a), "self_hosted_tco_inputs").JObj?
            && HostingFollows(Field(ToJson(a), "self_hosted_tco_inputs").fields, totals.effective)
  {
    var a := Derive(c, telemetry, clock).value;
    facts := TiersRead(c, telemetry, clock);
    rows, m, totals := WhatWasDerived(c, telemetry, clock);
    MeasuresFollow(c, telemetry, clock, a, rows, m, totals);
    HostingWritten(a, totals.effective);
  }

  /** The name of the window, or the day when it has none. */
  function NameFor(c: Conversions, window: Object, today: string): string {
    var name := if "label" !in window then "" else if window["label"].JStr? then Strip(window["label"].s)
                else Strip(c.show(window["label"]));
    if name == "" then today else name
  }

  lemma NameForms(c: Conversions, window: Object, today: string)
    ensures WindowLabel(c, window, today) == NameFor(c, window, today)
  {
    StripOfTrimmed("");
  }

  lemma LabelsConcluded(c: Conversions, telemetry: Object, clock: Clock, d: Derivation)
    requires Filled(d) && Conclude(c, telemetry, clock, d).Success?
    ensures var a := Conclude(c, telemetry, clock, d).value;
            && Field(telemetry, "window").JObj? && a.capturedAt == clock.now
            && a.windowLabel == WindowLabel(c, Field(telemetry, "window").fields, clock.today)
  {
  }

  lemma LabelsEstimated(a: Assumptions)
    ensures Field(EstimatesJson(a), "captured_at") == JStr(a.capturedAt)
    ensures Field(EstimatesJson(a), "source_window_label") == JStr(a.windowLabel)
  {
  }

  lemma CapturedAlone(a: Assumptions)
    ensures "captured_at" !in ModelsJson(a)
  {
    assert "captured_at"[1] == 'a';
  }

  lemma WindowAlone(a: Assumptions)
    ensures "source_window_label" !in ModelsJson(a)
  {
    assert "source_window_label"[2] == 'u';
  }

  lemma LabelsWritten(a: Assumptions)
    ensures Field(ToJson(a), "captured_at") == JStr(a.capturedAt)
    ensures Field(ToJson(a), "source_window_label") == JStr(a.windowLabel)
  {
    LabelsEstimated(a);
    CapturedAlone(a);
    WindowAlone(a);
    FieldOfSum(EstimatesJson(a), ModelsJson(a), "captured_at");
    FieldOfSum(EstimatesJson(a), ModelsJson(a), "source_window_label");
  }

  /** The derived assumptions say when they were made and from which window. */
  lemma WindowDerived(c: Conversions, telemetry: Object, clock: Clock)
    requires Derive(c, telemetry, clock).Success?
    ensures var fields := ToJson(Derive(c, telemetry, clock).value);
            && Field(telemetry, "window").JObj? && Field(fields, "captured_at") == JStr(clock.now)
            && Field(fields, "source_window_label") ==
               JStr(NameFor(c, Field(telemetry, "window").fields, clock.today))
  {
    var subscriptions, llm, d := LoopSteps(c, telemetry, clock);
    LabelsConcluded(c, telemetry, clock, d);
    NameForms(c, Field(telemetry, "window").fields, clock.today);
    LabelsWritten(Derive(c, telemetry, clock).value);
  }

  /** The multipliers of a scenario, by tier. */
  predicate ItemSays(item: Json, name: string, subscriptions: seq<real>, prices: seq<real>)
    requires |subscriptions| == |prices| == 4
  {
    && item.JObj? && Field(item.fields, "name") == JStr(name)
    && var s := Field(item.fields, "subscription_multipliers_by_tier");
    && var p := Field(item.fields, "monthly_price_multipliers_by_tier");
    && s.JObj? && p.JObj?
    && Field(s.fields, "starter") == JReal(subscriptions[0]) && Field(p.fields, "starter") == JReal(prices[0])
    && Field(s.fields, "growth") == JReal(subscriptions[1]) && Field(p.fields, "growth") == JReal(prices[1])
    && Field(s.fields, "pro") == JReal(subscriptions[2]) && Field(p.fields, "pro") == JReal(prices[2])
    && Field(s.fields, "enterprise") == JReal(subscriptions[3]) && Field(p.fields, "enterprise") == JReal(prices[3])
  }

  lemma ItemWritten(name: string, s: seq<real>, p: seq<real>)
    requires |s| == |p| == 4
    ensures ItemSays(ScenarioJson(name, TierMultipliers(s[0], s[1], s[2], s[3]),
                                  TierMultipliers(p[0], p[1], p[2], p[3])), name, s, p)
  {
    ScenarioFields(name, TierMultipliers(s[0], s[1], s[2], s[3]), TierMultipliers(p[0], p[1], p[2], p[3]));
  }

  lemma UnchangedItem()
    ensures ItemSays(BASELINE, "baseline", [1.0, 1.0, 1.0, 1.0], [1.0, 1.0, 1.0, 1.0])
  {
    ItemWritten("baseline", [1.0, 1.0, 1.0, 1.0], [1.0, 1.0, 1.0, 1.0]);
  }

  lemma RetentionItem()
    ensures ItemSays(RETENTION, "pro_price_plus_15_growth_retention", [1.0, 0.99, 0.96, 1.02], [1.0, 1.0, 1.15, 1.0])
  {
    ItemWritten("pro_price_plus_15_growth_retention", [1.0, 0.99, 0.96, 1.02], [1.0, 1.0, 1.15, 1.0]);
  }

  lemma ExpansionItem()
    ensures ItemSays(EXPANSION, "enterprise_expansion_signal", [1.0, 1.01, 1.03, 1.08], [1.0, 1.0, 1.0, 1.0])
  {
    ItemWritten("enterprise_expansion_signal", [1.0, 1.01, 1.03, 1.08], [1.0, 1.0, 1.0, 1.0]);
  }

  predicate ThreeItems(items: seq<Json>) {
    && |items| == 3
    && ItemSays(items[0], "baseline", [1.0, 1.0, 1.0, 1.0], [1.0, 1.0, 1.0, 1.0])
    && ItemSays(items[1], "pro_price_plus_15_growth_retention", [1.0, 0.99, 0.96, 1.02], [1.0, 1.0, 1.15, 1.0])
    && ItemSays(items[2], "enterprise_expansion_signal", [1.0, 1.01, 1.03, 1.08], [1.0, 1.0, 1.0, 1.0])
  }

  lemma ItemsWritten()
    ensures ThreeItems([BASELINE, RETENTION, EXPANSION])
  {
    UnchangedItem();
    RetentionItem();
    ExpansionItem();
  }

  lemma ModelItems()
    ensures Items(SCENARIO_MODELS.fields, "price_sensitivity") == [BASELINE, RETENTION, EXPANSION]
  {
  }

  lemma ModelsField(a: Assumptions)
    ensures Field(ToJson(a), "scenario_models") == SCENARIO_MODELS
  {
    ToJsonFields(a);
  }

  /** The derived assumptions ask for three scenarios: nothing changes, a higher price of the pro plan with
      some losses, and more enterprise subscriptions. */
  lemma ModelsWritten(a: Assumptions)
    ensures var models := Field(ToJson(a), "scenario_models");
            models.JObj? && ThreeItems(Items(models.fields, "price_sensitivity"))
  {
    ModelsField(a);
    ModelItems();
    ItemsWritten();
  }

  // ------------------------------------------------------ when it is derived

  /** The two ways to read a tier agree when there is one. */
  lemma SameTier(c: Conversions, item: Json)
    requires TierText(c, item) != ""
    ensures LooseTier(c, item.fields) == Lower(TierText(c, item)) != ""
  {
    StripOfTrimmed("");
  }

  lemma {:induction false} LooselyIndexed(c: Conversions, items: seq<Json>, field: string, m: map<string, Object>)
    requires TiersApart(c, items) && ApartFrom(c, items, m.Keys)
    ensures LooseIndex(c, items, field, m).Success?
    decreases items
  {
    if items != [] {
      var tier := Lower(TierText(c, items[0]));
      SameTier(c, items[0]);
      ApartCons(c, items, m.Keys);
      assert m[tier := items[0].fields].Keys == m.Keys + {tier};
      LooselyIndexed(c, items[1..], field, m[tier := items[0].fields]);
    }
  }

  lemma {:induction false} LoopSucceeds(c: Conversions, pricing: Object, subscriptions: map<string, Object>,
                                        llm: map<string, Object>, tiers: seq<string>, d: Derivation)
    requires forall tier | tier in tiers :: Field(pricing, tier).JObj?
    ensures DeriveTiers(c, pricing, subscriptions, llm, tiers, d).Success?
    decreases tiers
  {
    if tiers != [] {
      assert tiers == [tiers[0]] + tiers[1..];
      LoopSucceeds(c, pricing, subscriptions, llm, tiers[1..],
                   DeriveTier(c, pricing, subscriptions, llm, tiers[0], d).value);
    }
  }

  lemma LoopReached(c: Conversions, telemetry: Object, clock: Clock) returns (d: Derivation)
    requires EconomicsOk(c, telemetry)
    ensures Filled(d) && CostsInRange(CostsOf(d)) && Conclude(c, telemetry, clock, d) == Derive(c, telemetry, clock)
  {
    var pricing := Field(telemetry, "pricing_reference").fields;
    LooselyIndexed(c, Items(telemetry, "tier_subscription_snapshot"), "tier_subscription_snapshot", map[]);
    LooselyIndexed(c, Items(telemetry, "tier_llm_usage"), "tier_llm_usage", map[]);
    var subscriptions := LooseIndex(c, Items(telemetry, "tier_subscription_snapshot"), "tier_subscription_snapshot",
                                    map[]).value;
    var llm := LooseIndex(c, Items(telemetry, "tier_llm_usage"), "tier_llm_usage", map[]).value;
    forall tier | tier in TRACKED_TIERS ensures Field(pricing, tier).JObj? {
      assert tier in TIER_NAMES && TierOk(c, telemetry, tier);
    }
    LoopSucceeds(c, pricing, subscriptions, llm, TRACKED_TIERS, NOTHING_DERIVED);
    d := DeriveTiers(c, pricing, subscriptions, llm, TRACKED_TIERS, NOTHING_DERIVED).value;
    DerivedTiers(c, pricing, subscriptions, llm, TRACKED_TIERS, NOTHING_DERIVED);
    LoopInRange(c, pricing, subscriptions, llm, d);
  }

  lemma LoopInRange(c: Conversions, pricing: Object, subscriptions: map<string, Object>, llm: map<string, Object>,
                    d: Derivation)
    requires DeriveTiers(c, pricing, subscriptions, llm, TRACKED_TIERS, NOTHING_DERIVED) == Success(d)
    ensures Filled(d) && CostsInRange(CostsOf(d))
  {
    DerivedTiers(c, pricing, subscriptions, llm, TRACKED_TIERS, NOTHING_DERIVED);
    forall tier | tier in TRACKED_TIERS ensures TierInRange(d, tier) {
    }
    DunningInRange(d.support);
  }

  lemma ConcludeIff(c: Conversions, telemetry: Object, clock: Clock, d: Derivation)
    requires Lawful(c) && Filled(d) && CostsInRange(CostsOf(d))
    ensures Conclude(c, telemetry, clock, d).Success? <==>
            && EconomicsOk(c, telemetry) && (forall tier | tier in TIER_NAMES :: PercentilesOk(c, telemetry, tier))
            && Field(telemetry, "window").JObj?
  {
    EconomicsIff(c, telemetry, CostsOf(d));
    if EconomicsOk(c, telemetry) {
      var rows := UnitEconomics(c, telemetry, CostsOf(d)).value;
      MeasureIff(c, telemetry, CostsOf(d), rows, SignalsOf(d), StressMultiplier(d));
    }
  }

  /** Assumptions are derived exactly from the telemetry that the packet program can compute its metrics
      from, with a window of any kind. */
  lemma DeriveIff(c: Conversions, telemetry: Object, clock: Clock)
    requires Lawful(c)
    ensures Derive(c, telemetry, clock).Success? <==>
            && EconomicsOk(c, telemetry) && (forall tier | tier in TIER_NAMES :: PercentilesOk(c, telemetry, tier))
            && Field(telemetry, "window").JObj?
  {
    if EconomicsOk(c, telemetry) {
      var d := LoopReached(c, telemetry, clock);
      ConcludeIff(c, telemetry, clock, d);
    }
    if Derive(c, telemetry, clock).Success? {
      var subscriptions, llm, d := LoopSteps(c, telemetry, clock);
      LoopInRange(c, Field(telemetry, "pricing_reference").fields, subscriptions, llm, d);
      ConcludeIff(c, telemetry, clock, d);
    }
  }
}
