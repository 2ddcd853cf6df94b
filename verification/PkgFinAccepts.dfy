/** What the validator of the PKG/FIN evidence (`pkg_fin_policy_decisions_core.py`) accepts, for every
    payload, and when the generator's rows can be built. */
module PkgFinAccepts {
  import opened FinanceCommon
  import opened JsonValue
  import opened PkgFin
  import opened Text

  // --------------------------------------------------------------- telemetry

  /** A text with something in it other than white space and placeholders. */
  predicate Written(x: Texts, text: string) {
    Strip(text) != "" && !x.hasPlaceholder(Strip(text))
  }

  predicate OneOf(x: Texts, text: string, words: set<string>) {
    Written(x, text) && Strip(text) in words
  }

  lemma ChoiceIff(x: Texts, text: string, words: set<string>, field: string)
    ensures ParseChoice(x, text, words, field).Success? <==> OneOf(x, text, words)
    ensures OneOf(x, text, words) ==> ParseChoice(x, text, words, field) == Success(Strip(text))
  {
  }

  /** Every row names a tier and is consistent, and every required tier is named. */
  ghost predicate RowsOk(x: Texts, rows: seq<EconRow>) {
    && (forall i | 0 <= i < |rows| :: Written(x, rows[i].tier) && RowConsistent(rows[i]))
    && (forall tier | tier in REQUIRED_TIERS :: Named(rows, tier))
  }

  predicate Named(rows: seq<EconRow>, tier: string) {
    exists i :: 0 <= i < |rows| && Lower(Strip(rows[i].tier)) == tier
  }

  ghost predicate TelemetryOk(x: Texts, t: Telemetry) {
    && t.months >= 1
    && OneOf(x, t.sourceType, SOURCE_TYPES)
    && RowsOk(x, t.rows)
  }

  lemma RowIff(x: Texts, row: EconRow)
    ensures CheckRow(x, row).Success? <==> Written(x, row.tier) && RowConsistent(row)
    ensures CheckRow(x, row).Success? ==> CheckRow(x, row).value == Lower(Strip(row.tier))
  {
  }

  lemma {:induction false} RowsIff(x: Texts, rows: seq<EconRow>, seen: set<string>)
    ensures CheckRows(x, rows, seen).Success? <==>
            forall i | 0 <= i < |rows| :: Written(x, rows[i].tier) && RowConsistent(rows[i])
    ensures CheckRows(x, rows, seen).Success? ==>
              forall tier :: tier in CheckRows(x, rows, seen).value <==> tier in seen || Named(rows, tier)
    decreases rows
  {
    if rows != [] {
      RowIff(x, rows[0]);
      if CheckRow(x, rows[0]).Success? {
        RowsIff(x, rows[1..], seen + {Lower(Strip(rows[0].tier))});
        NamedCons(rows);
      }
    }
  }

  lemma NamedCons(rows: seq<EconRow>)
    requires rows != []
    ensures forall tier :: Named(rows, tier) <==> tier == Lower(Strip(rows[0].tier)) || Named(rows[1..], tier)
  {
    forall tier ensures Named(rows, tier) <==> tier == Lower(Strip(rows[0].tier)) || Named(rows[1..], tier) {
      if Named(rows, tier) {
        var i :| 0 <= i < |rows| && Lower(Strip(rows[i].tier)) == tier;
        if i > 0 {
          assert rows[1..][i - 1] == rows[i];
        }
      }
      if Named(rows[1..], tier) {
        var i :| 0 <= i < |rows| - 1 && Lower(Strip(rows[1..][i].tier)) == tier;
        assert rows[i + 1] == rows[1..][i];
      }
    }
  }

  /** Which telemetry is accepted, and what is reported of it. */
  lemma TelemetryIff(x: Texts, t: Telemetry)
    ensures TelemetryVerdict(x, t).Success? <==> TelemetryOk(x, t)
    ensures TelemetryOk(x, t) ==> TelemetryVerdict(x, t) == Success((t.months >= 2, Strip(t.sourceType)))
  {
    ChoiceIff(x, t.sourceType, SOURCE_TYPES, "source_type");
    RowsIff(x, t.rows, {});
    if RowsOk(x, t.rows) {
      assert Named(t.rows, "pro");
    }
  }

  // ------------------------------------------------------- policy and approvals

  ghost predicate ChoicesOk(x: Texts, p: Policy) {
    && OneOf(x, p.pricingModel, PRICING_MODELS)
    && 0.0 <= p.maxDiscount <= 100.0
    && OneOf(x, p.growthScope, GROWTH_SCOPES)
    && OneOf(x, p.proBoundary, PRO_BOUNDARIES)
    && OneOf(x, p.migrationStrategy, STRATEGIES)
  }

  /** Every choice is one of those on offer, a time-boxed migration has a window, and a pricing model with
      a floor has one. */
  ghost predicate PolicyOk(x: Texts, p: Policy) {
    && ChoicesOk(x, p)
    && 0 <= p.windowDays && (Strip(p.migrationStrategy) == "grandfather_timeboxed" ==> 0 < p.windowDays)
    && (p.floor.Some? ==> 0.0 <= p.floor.value)
    && (Strip(p.pricingModel) != "spend_based" ==> p.floor.Some? && 1.0 <= p.floor.value)
  }

  /** Prices may move on observed telemetry of two months, and must not on synthetic telemetry. */
  predicate Guarded(t: Telemetry, p: Policy) {
    if p.motionAllowed then t.months >= 2 && Strip(t.sourceType) == "production_observed"
    else Strip(t.sourceType) == "synthetic_prelaunch"
  }

  lemma ChoicesIff(x: Texts, p: Policy)
    ensures PolicyChoices(x, p).Success? <==> ChoicesOk(x, p)
    ensures ChoicesOk(x, p) ==> PolicyChoices(x, p) == Success((Strip(p.pricingModel), Strip(p.migrationStrategy)))
  {
    ChoiceIff(x, p.pricingModel, PRICING_MODELS, "enterprise_pricing_model");
    ChoiceIff(x, p.growthScope, GROWTH_SCOPES, "growth_auto_remediation_scope");
    ChoiceIff(x, p.proBoundary, PRO_BOUNDARIES, "pro_enforcement_boundary");
    ChoiceIff(x, p.migrationStrategy, STRATEGIES, "migration_strategy");
  }

  lemma PolicyIff(x: Texts, p: Policy, sufficient: bool, source: string)
    ensures PolicyVerdict(x, p, sufficient, source).Success? <==> PolicyOk(x, p)
    ensures PolicyOk(x, p) ==>
              PolicyVerdict(x, p, sufficient, source) ==
              Success((true, if p.motionAllowed then sufficient && source == "production_observed"
                             else source == "synthetic_prelaunch"))
  {
    ChoicesIff(x, p);
  }

  ghost predicate ApprovalsOk(x: Texts, a: Approvals, capturedAt: int) {
    && Written(x, a.financeOwner) && Written(x, a.productOwner) && Written(x, a.marketOwner)
    && OneOf(x, a.mode, GOVERNANCE_MODES)
    && (Strip(a.mode) == "segregated_owners" ==>
          Distinct([Lower(Strip(a.financeOwner)), Lower(Strip(a.productOwner)), Lower(Strip(a.marketOwner))]))
    && Written(x, a.recordRef) && a.approvedAt <= capturedAt
  }

  lemma ThreeDistinct(a: string, b: string, c: string)
    ensures Distinct([a, b, c]) <==> a != b && a != c && b != c
  {
    var s := [a, b, c];
    if Distinct(s) {
      assert s[0] != s[1] && s[0] != s[2] && s[1] != s[2];
    }
  }

  lemma ApprovalsIff(x: Texts, a: Approvals, capturedAt: int)
    ensures ApprovalsVerdict(x, a, capturedAt).Success? <==> ApprovalsOk(x, a, capturedAt)
    ensures ApprovalsOk(x, a, capturedAt) ==> ApprovalsVerdict(x, a, capturedAt) == Success(true)
  {
    ChoiceIff(x, a.mode, GOVERNANCE_MODES, "governance_mode");
    ThreeDistinct(Lower(Strip(a.financeOwner)), Lower(Strip(a.productOwner)), Lower(Strip(a.marketOwner)));
  }

  // ------------------------------------------------------------------- backlog

  function IdOf(text: string): string {
    Upper(Strip(text))
  }

  function IdsOf(texts: seq<string>): seq<string> {
    seq(|texts|, i requires 0 <= i < |texts| => IdOf(texts[i]))
  }

  function ItemIds(items: seq<Item>): seq<string> {
    seq(|items|, i requires 0 <= i < |items| => IdOf(items[i].id))
  }

  predicate Scheduled(item: Item) {
    Lower(Strip(item.resolution)) == "scheduled_postlaunch"
  }

  predicate Locked(item: Item) {
    Lower(Strip(item.resolution)) == "locked_prelaunch"
  }

  /** An item that is acceptable by itself. */
  predicate ItemOk(x: Texts, item: Item, capturedAt: int) {
    && Written(x, item.id)
    && Written(x, item.ownerFunction) && Lower(Strip(item.ownerFunction)) in OWNER_FUNCTIONS
    && Written(x, item.owner) && Written(x, item.summary)
    && Written(x, item.resolution) && (Locked(item) || Scheduled(item))
    && Written(x, item.recordRef) && item.approvedAt <= capturedAt
    && (Scheduled(item) ==>
          item.targetDate.Some? && item.targetDate.value >= DateOf(capturedAt) && Written(x, item.criteria))
  }

  ghost predicate ItemsOk(x: Texts, items: seq<Item>, capturedAt: int) {
    forall i | 0 <= i < |items| :: ItemOk(x, items[i], capturedAt)
  }

  predicate BlockersLocked(items: seq<Item>) {
    forall i | 0 <= i < |items| :: items[i].launchBlocking ==> Locked(items[i])
  }

  /** The required ids are listed, and there is one acceptable item for each of them and no other. */
  ghost predicate BacklogOk(x: Texts, ids: seq<string>, items: seq<Item>, capturedAt: int) {
    && (forall i | 0 <= i < |ids| :: Written(x, ids[i]))
    && AsSet(IdsOf(ids)) == AsSet(REQUIRED_IDS)
    && ItemsOk(x, items, capturedAt)
    && Distinct(ItemIds(items)) && AsSet(ItemIds(items)) == AsSet(REQUIRED_IDS)
  }

  lemma {:induction false} IdsIff(x: Texts, ids: seq<string>, normalized: seq<string>)
    ensures CheckIds(x, ids, normalized).Success? <==> forall i | 0 <= i < |ids| :: Written(x, ids[i])
    ensures CheckIds(x, ids, normalized).Success? ==>
              CheckIds(x, ids, normalized) == Success(normalized + IdsOf(ids))
    decreases ids
  {
    if ids == [] {
      assert normalized + IdsOf(ids) == normalized;
    } else if Written(x, ids[0]) {
      IdsIff(x, ids[1..], normalized + [IdOf(ids[0])]);
      assert normalized + [IdOf(ids[0])] + IdsOf(ids[1..]) == normalized + IdsOf(ids);
      assert forall i | 0 < i < |ids| :: ids[i] == ids[1..][i - 1];
    }
  }

  lemma ResolutionIff(x: Texts, item: Item, capturedAt: int)
    ensures ItemResolution(x, item, capturedAt).Success? <==>
            && Written(x, item.resolution) && (Locked(item) || Scheduled(item))
            && Written(x, item.recordRef) && item.approvedAt <= capturedAt
            && (Scheduled(item) ==>
                  item.targetDate.Some? && item.targetDate.value >= DateOf(capturedAt) && Written(x, item.criteria))
    ensures ItemResolution(x, item, capturedAt).Success? ==>
              ItemResolution(x, item, capturedAt).value == Lower(Strip(item.resolution))
  {
  }

  lemma HeadIff(x: Texts, item: Item, seen: set<string>)
    ensures ItemHead(x, item, seen).Success? <==>
            && Written(x, item.id) && IdOf(item.id) !in seen && IdOf(item.id) in REQUIRED_IDS
            && Written(x, item.ownerFunction) && Lower(Strip(item.ownerFunction)) in OWNER_FUNCTIONS
            && Written(x, item.owner) && Written(x, item.summary)
    ensures ItemHead(x, item, seen).Success? ==> ItemHead(x, item, seen).value == IdOf(item.id)
  {
  }

  predicate Fresh(item: Item, seen: set<string>) {
    IdOf(item.id) !in seen && IdOf(item.id) in REQUIRED_IDS
  }

  function After(p: Progress, item: Item): Progress {
    Progress(p.seen + {IdOf(item.id)}, p.launch && (item.launchBlocking ==> Locked(item)), p.postlaunch)
  }

  /** The last test of an item, whether a scheduled one has criteria, cannot fail: it was checked before. */
  lemma ItemIff(x: Texts, item: Item, capturedAt: int, p: Progress)
    ensures CheckItem(x, item, capturedAt, p).Success? <==> ItemOk(x, item, capturedAt) && Fresh(item, p.seen)
    ensures CheckItem(x, item, capturedAt, p).Success? ==> CheckItem(x, item, capturedAt, p) == Success(After(p, item))
  {
    HeadIff(x, item, p.seen);
    ResolutionIff(x, item, capturedAt);
  }

  /** The ids of the items are new, distinct and canonical. */
  ghost predicate AllFresh(items: seq<Item>, seen: set<string>) {
    && Distinct(ItemIds(items))
    && forall i | 0 <= i < |items| :: Fresh(items[i], seen)
  }

  lemma DistinctCons(id: string, ids: seq<string>)
    ensures Distinct([id] + ids) <==> id !in ids && Distinct(ids)
  {
    var all := [id] + ids;
    if Distinct(all) {
      forall i | 0 <= i < |ids| ensures ids[i] != id {
        assert all[0] != all[i + 1];
      }
      forall i, j | 0 <= i < j < |ids| ensures ids[i] != ids[j] {
        assert all[i + 1] != all[j + 1];
      }
    }
  }

  lemma FreshTail(items: seq<Item>, seen: set<string>)
    requires items != []
    ensures (forall i | 0 <= i < |items| :: Fresh(items[i], seen)) && IdOf(items[0].id) !in ItemIds(items[1..]) <==>
            Fresh(items[0], seen) && forall i | 0 <= i < |items| - 1 ::
              Fresh(items[1..][i], seen + {IdOf(items[0].id)})
  {
    var rest, id := ItemIds(items[1..]), IdOf(items[0].id);
    assert forall i | 0 <= i < |items| - 1 :: items[1..][i] == items[i + 1] && rest[i] == IdOf(items[i + 1].id);
    assert forall i | 0 < i < |items| :: items[i] == items[1..][i - 1];
    if forall i | 0 <= i < |items| - 1 :: Fresh(items[1..][i], seen + {id}) {
      forall i | 0 <= i < |rest| ensures rest[i] != id {
        assert Fresh(items[1..][i], seen + {id});
      }
    }
  }

  lemma FreshCons(items: seq<Item>, seen: set<string>)
    requires items != []
    ensures AllFresh(items, seen) <==>
            Fresh(items[0], seen) && AllFresh(items[1..], seen + {IdOf(items[0].id)})
  {
    assert ItemIds(items) == [IdOf(items[0].id)] + ItemIds(items[1..]);
    DistinctCons(IdOf(items[0].id), ItemIds(items[1..]));
    FreshTail(items, seen);
  }

  lemma OkCons(x: Texts, items: seq<Item>, capturedAt: int)
    requires items != []
    ensures ItemsOk(x, items, capturedAt) <==> ItemOk(x, items[0], capturedAt) && ItemsOk(x, items[1..], capturedAt)
    ensures BlockersLocked(items) <==> (items[0].launchBlocking ==> Locked(items[0])) && BlockersLocked(items[1..])
  {
    assert forall i | 0 < i < |items| :: items[i] == items[1..][i - 1];
    assert forall i | 0 <= i < |items| - 1 :: items[1..][i] == items[i + 1];
  }

  lemma IdsCons(items: seq<Item>)
    requires items != []
    ensures AsSet(ItemIds(items)) == {IdOf(items[0].id)} + AsSet(ItemIds(items[1..]))
  {
    AsSetCons(ItemIds(items));
    assert ItemIds(items)[1..] == ItemIds(items[1..]);
  }

  lemma {:induction false} ItemsIff(x: Texts, items: seq<Item>, capturedAt: int, p: Progress)
    ensures CheckItems(x, items, capturedAt, p).Success? <==> ItemsOk(x, items, capturedAt) && AllFresh(items, p.seen)
    ensures CheckItems(x, items, capturedAt, p).Success? ==>
              CheckItems(x, items, capturedAt, p) ==
              Success(Progress(p.seen + AsSet(ItemIds(items)), p.launch && BlockersLocked(items), p.postlaunch))
    decreases items
  {
    if items == [] {
      assert p.seen + AsSet(ItemIds(items)) == p.seen;
    } else {
      ItemIff(x, items[0], capturedAt, p);
      FreshCons(items, p.seen);
      OkCons(x, items, capturedAt);
      if CheckItem(x, items[0], capturedAt, p).Success? {
        var next := After(p, items[0]);
        ItemsIff(x, items[1..], capturedAt, next);
        IdsCons(items);
        assert next.seen + AsSet(ItemIds(items[1..])) == p.seen + AsSet(ItemIds(items));
      }
    }
  }

  lemma FreshIff(items: seq<Item>)
    ensures AllFresh(items, {}) && AsSet(REQUIRED_IDS) <= AsSet(ItemIds(items)) <==>
            Distinct(ItemIds(items)) && AsSet(ItemIds(items)) == AsSet(REQUIRED_IDS)
  {
    var ids := ItemIds(items);
    if AllFresh(items, {}) {
      forall id | id in AsSet(ids) ensures id in AsSet(REQUIRED_IDS) {
        var i :| 0 <= i < |ids| && ids[i] == id;
        assert Fresh(items[i], {});
      }
    }
    if AsSet(ids) == AsSet(REQUIRED_IDS) {
      forall i | 0 <= i < |items| ensures Fresh(items[i], {}) {
        assert ids[i] in AsSet(ids);
      }
    }
  }

  /** Which backlogs are accepted. Of the three results only the one about launch blockers can be false:
      the tests of coverage and of post-launch commitments come after the same conditions have been
      enforced. */
  lemma BacklogIff(x: Texts, ids: seq<string>, items: seq<Item>, capturedAt: int)
    ensures BacklogVerdict(x, ids, items, capturedAt).Success? <==> BacklogOk(x, ids, items, capturedAt)
    ensures BacklogOk(x, ids, items, capturedAt) ==>
              BacklogVerdict(x, ids, items, capturedAt) == Success((true, BlockersLocked(items), true))
  {
    IdsIff(x, ids, []);
    assert [] + IdsOf(ids) == IdsOf(ids);
    ItemsIff(x, items, capturedAt, NOTHING_SEEN);
    assert {} + AsSet(ItemIds(items)) == AsSet(ItemIds(items));
    FreshIff(items);
    SomeId(ids, items);
  }

  lemma SomeId(ids: seq<string>, items: seq<Item>)
    ensures AsSet(IdsOf(ids)) == AsSet(REQUIRED_IDS) ==> ids != []
    ensures AsSet(ItemIds(items)) == AsSet(REQUIRED_IDS) ==> items != []
  {
    assert REQUIRED_IDS[0] in AsSet(REQUIRED_IDS);
  }

  // ------------------------------------------------------------------- verdict

  lemma VerdictParts(x: Texts, p: Payload, now: int, maxAge: int, t: (bool, string), pol: (bool, bool),
                     b: (bool, bool, bool))
    requires TelemetryVerdict(x, p.telemetry) == Success(t) && PolicyVerdict(x, p.policy, t.0, t.1) == Success(pol)
    requires ApprovalsVerdict(x, p.approvals, p.capturedAt) == Success(true)
    requires BacklogVerdict(x, p.requiredIds, p.items, p.capturedAt) == Success(b)
    ensures Verdict(x, p, now, maxAge).Success? <==>
            && now - p.capturedAt <= maxAge && WindowOk(x, p.start, p.end)
            && t.0 && pol.0 && pol.1 && b.0 && b.1 && b.2 && AllTrue(p.gates)
  {
  }

  /** Which payloads are accepted: fresh, with a window of times in order, complete and consistent
      telemetry of at least two months, complete policy decisions with guarded prices, complete
      approvals, one acceptable item per canonical id, locked launch blockers, and seven gates that
      are all reported as passed. */
  lemma VerdictIff(x: Texts, p: Payload, now: int, maxAge: int)
    ensures Verdict(x, p, now, maxAge).Success? <==>
            && now - p.capturedAt <= maxAge
            && WindowOk(x, p.start, p.end)
            && TelemetryOk(x, p.telemetry) && p.telemetry.months >= 2
            && PolicyOk(x, p.policy) && Guarded(p.telemetry, p.policy)
            && ApprovalsOk(x, p.approvals, p.capturedAt)
            && BacklogOk(x, p.requiredIds, p.items, p.capturedAt) && BlockersLocked(p.items)
            && AllTrue(p.gates)
  {
    var sufficient, source := p.telemetry.months >= 2, Strip(p.telemetry.sourceType);
    TelemetryIff(x, p.telemetry);
    PolicyIff(x, p.policy, sufficient, source);
    ApprovalsIff(x, p.approvals, p.capturedAt);
    BacklogIff(x, p.requiredIds, p.items, p.capturedAt);
    if TelemetryOk(x, p.telemetry) && PolicyOk(x, p.policy) && ApprovalsOk(x, p.approvals, p.capturedAt)
       && BacklogOk(x, p.requiredIds, p.items, p.capturedAt)
    {
      VerdictParts(x, p, now, maxAge, (sufficient, source), PolicyVerdict(x, p.policy, sufficient, source).value,
                   (true, BlockersLocked(p.items), true));
    }
  }

  // -------------------------------------------------------------- the generator

  /** A telemetry list in which every row is an object with a tier of its own. */
  function Index(c: Conversions, telemetry: Object, field: string): Result<map<string, Object>> {
    var rows :- RowsField(telemetry, field);
    IndexRows(c, rows, field, map[])
  }

  /** The numbers of a tier are there and in range. */
  predicate TierReadable(c: Conversions, rows: Rows, tier: string) {
    && tier in rows.revenue && tier in rows.llm && tier in rows.subscriptions
    && NonNegative(c, GetOr(rows.revenue[tier], "gross_mrr_usd", JReal(0.0)), "gross_mrr_usd").Success?
    && Factor(c, Field(rows.pricing, tier)).Success?
    && NonNegative(c, GetOr(rows.llm[tier], "total_cost_usd", JReal(0.0)), "total_cost_usd").Success?
    && ParseInt(c, GetOr(rows.subscriptions[tier], "active_subscriptions", JInt(0)), "active_subscriptions",
                Some(0)).Success?
  }

  lemma {:induction false} BuiltIff(make: RowMaker, tiers: seq<string>, built: seq<EconRow>)
    ensures BuildRows(make, tiers, built).Success? <==> forall i | 0 <= i < |tiers| :: make(tiers[i]).Success?
    decreases tiers
  {
    if tiers != [] {
      assert forall i | 0 < i < |tiers| :: tiers[i] == tiers[1..][i - 1];
      assert forall i | 0 <= i < |tiers| - 1 :: tiers[1..][i] == tiers[i + 1];
      if make(tiers[0]).Success? {
        BuiltIff(make, tiers[1..], built + [make(tiers[0]).value]);
      }
    }
  }

  lemma RowsBuiltIff(c: Conversions, rows: Rows)
    ensures BuildRows(tier => TierRow(c, rows, tier), SORTED_TIERS, []).Success? <==>
            forall i | 0 <= i < |SORTED_TIERS| :: TierReadable(c, rows, SORTED_TIERS[i])
  {
    var make: RowMaker := tier => TierRow(c, rows, tier);
    BuiltIff(make, SORTED_TIERS, []);
    assert forall i | 0 <= i < |SORTED_TIERS| ::
        make(SORTED_TIERS[i]).Success? <==> TierReadable(c, rows, SORTED_TIERS[i]);
  }

  /** The rows can be built exactly when the three lists are indexed, the pricing reference is an object
      and the numbers of all four tiers are there and in range: a missing tier always fails. */
  lemma EconomicsIff(c: Conversions, telemetry: Object)
    ensures Economics(c, telemetry).Success? <==>
            var revenue, llm := Index(c, telemetry, "tier_revenue_inputs"), Index(c, telemetry, "tier_llm_usage");
            var subscriptions, pricing :=
              Index(c, telemetry, "tier_subscription_snapshot"), Field(telemetry, "pricing_reference");
            && revenue.Success? && llm.Success? && subscriptions.Success? && pricing.JObj?
            && forall i | 0 <= i < |SORTED_TIERS| ::
                 TierReadable(c, Rows(revenue.value, llm.value, subscriptions.value, pricing.fields), SORTED_TIERS[i])
  {
    var revenue, llm := Index(c, telemetry, "tier_revenue_inputs"), Index(c, telemetry, "tier_llm_usage");
    var subscriptions, pricing :=
      Index(c, telemetry, "tier_subscription_snapshot"), Field(telemetry, "pricing_reference");
    if revenue.Success? && llm.Success? && subscriptions.Success? && pricing.JObj? {
      RowsBuiltIff(c, Rows(revenue.value, llm.value, subscriptions.value, pricing.fields));
    }
  }
}
