/** The PKG/FIN policy evidence: the generator's payload (`generate_pkg_fin_policy_decisions.py`) and
    the validator it has to pass (`pkg_fin_policy_decisions_core.py`).

    Times are whole seconds since the epoch, dates whole days. The payload is typed: what is not
    modelled is a field of the wrong JSON type. */
module PkgFin {
  import opened FinanceCommon
  import opened JsonValue
  import opened Rounding
  import opened Text

  const HOUR := 3600
  const DAY := 86400

  function DateOf(time: int): int {
    time / DAY
  }

  /** `hasPlaceholder` is the search for placeholder tokens, `isoTime` the ISO-8601 parser, `dateText`
      a date as text. */
  datatype Texts = Texts(hasPlaceholder: string -> bool, isoTime: string -> Option<int>, dateText: int -> string)

  datatype EconRow = EconRow(tier: string, mrr: real, effective: real, llm: real, infra: real, support: real)

  datatype Telemetry = Telemetry(months: int, sourceType: string, rows: seq<EconRow>)

  datatype Policy = Policy(
    pricingModel: string, floor: Option<real>, maxDiscount: real, motionAllowed: bool, growthScope: string,
    proBoundary: string, migrationStrategy: string, windowDays: int)

  datatype Approvals = Approvals(
    financeOwner: string, productOwner: string, marketOwner: string, mode: string, recordRef: string, approvedAt: int)

  datatype Item = Item(
    id: string, ownerFunction: string, owner: string, summary: string, resolution: string, launchBlocking: bool,
    recordRef: string, approvedAt: int, targetDate: Option<int>, criteria: string)

  datatype Gates = Gates(
    policy: bool, window: bool, approvals: bool, motion: bool, coverage: bool, launch: bool, postlaunch: bool)

  datatype Payload = Payload(
    capturedAt: int, start: string, end: string, telemetry: Telemetry, policy: Policy, approvals: Approvals,
    requiredIds: seq<string>, items: seq<Item>, gates: Gates)

  const REQUIRED_TIERS := {"starter", "growth", "pro", "enterprise"}
  const SORTED_TIERS := ["enterprise", "growth", "pro", "starter"]

  const PKG_IDS :=
    ["PKG-004", "PKG-005", "PKG-009", "PKG-011", "PKG-012", "PKG-013", "PKG-016", "PKG-017", "PKG-018", "PKG-019",
     "PKG-021", "PKG-022", "PKG-023", "PKG-024", "PKG-025", "PKG-026", "PKG-027", "PKG-028", "PKG-029", "PKG-030",
     "PKG-031", "PKG-032"]

  const FIN_IDS :=
    ["FIN-001", "FIN-002", "FIN-003", "FIN-004", "FIN-005", "FIN-006", "FIN-007", "FIN-008"]

  const REQUIRED_IDS := PKG_IDS + FIN_IDS

  const LAUNCH_BLOCKING :=
    {"PKG-004", "PKG-005", "PKG-009", "PKG-011", "PKG-012", "FIN-001", "FIN-002", "FIN-003"}

  const POSTLAUNCH := {"PKG-029", "PKG-030", "PKG-031"}

  const OWNER_FUNCTIONS := {"product", "finance", "go_to_market", "legal", "engineering", "operations"}

  function Upper(s: string): string {
    if s == [] then []
    else [if 'a' <= s[0] <= 'z' then s[0] - 'a' + 'A' else s[0]] + Upper(s[1..])
  }

  function AsSet(names: seq<string>): set<string> {
    set i | 0 <= i < |names| :: names[i]
  }

  // ------------------------------------------------------------- the validator

  /** `parse_non_empty_str` of the PKG/FIN parsers. */
  function ParseText(x: Texts, value: string, field: string): Result<string> {
    if Strip(value) == "" || x.hasPlaceholder(Strip(value)) then Failure(field) else Success(Strip(value))
  }

  function Check(ok: bool, field: string): Result<()> {
    if ok then Success(()) else Failure(field)
  }

  /** A text that has to be one of some words. */
  function ParseChoice(x: Texts, value: string, words: set<string>, field: string): Result<string> {
    var text :- ParseText(x, value, field);
    var known :- Check(text in words, field);
    Success(text)
  }

  const SOURCE_TYPES := {"synthetic_prelaunch", "production_observed"}
  const PRICING_MODELS := {"flat_floor", "spend_based", "hybrid"}
  const GROWTH_SCOPES := {"nonprod_only", "all_environments"}
  const PRO_BOUNDARIES := {"required_for_prod_enforcement", "not_required"}
  const STRATEGIES := {"grandfather_timeboxed", "contract_renewal_cutover", "immediate_cutover"}
  const GOVERNANCE_MODES := {"founder_acting_roles_prelaunch", "segregated_owners"}

  function CheckRow(x: Texts, row: EconRow): Result<string> {
    var tier :- ParseText(x, row.tier, "tier");
    var amounts :- Check(0.0 <= row.mrr && 0.0 <= row.effective, "mrr_usd");
    var discount :- Check(row.effective <= row.mrr, "effective_mrr_usd");
    var cogs :- Check(0.0 <= row.llm && 0.0 <= row.infra && 0.0 <= row.support, "cogs_usd");
    Success(Lower(tier))
  }

  function CheckRows(x: Texts, rows: seq<EconRow>, seen: set<string>): Result<set<string>>
    decreases rows
  {
    if rows == [] then Success(seen)
    else
      var tier :- CheckRow(x, rows[0]);
      CheckRows(x, rows[1..], seen + {tier})
  }

  /** `validate_telemetry` */
  function TelemetryVerdict(x: Texts, t: Telemetry): Result<(bool, string)> {
    var months :- Check(t.months >= 1, "months_observed");
    var source :- ParseChoice(x, t.sourceType, SOURCE_TYPES, "source_type");
    var present :- Check(t.rows != [], "tier_unit_economics");
    var seen :- CheckRows(x, t.rows, {});
    var complete :- Check(REQUIRED_TIERS <= seen, "tier_unit_economics");
    Success((t.months >= 2, source))
  }

  method ValidateTelemetry(x: Texts, t: Telemetry) returns (r: Result<(bool, string)>)
    ensures r == TelemetryVerdict(x, t)
  {
    var months :- Check(t.months >= 1, "months_observed");
    var source :- ParseChoice(x, t.sourceType, SOURCE_TYPES, "source_type");
    var present :- Check(t.rows != [], "tier_unit_economics");
    var seen: set<string> := {};
    assert t.rows[0..] == t.rows;
    for i := 0 to |t.rows|
      invariant CheckRows(x, t.rows[i..], seen) == CheckRows(x, t.rows, {})
    {
      assert t.rows[i..][1..] == t.rows[i + 1..];
      var tier :- CheckRow(x, t.rows[i]);
      seen := seen + {tier};
    }
    var complete :- Check(REQUIRED_TIERS <= seen, "tier_unit_economics");
    return Success((t.months >= 2, source));
  }

  /** The pricing model and the migration strategy, with the choices checked before them. */
  function PolicyChoices(x: Texts, p: Policy): Result<(string, string)> {
    var model :- ParseChoice(x, p.pricingModel, PRICING_MODELS, "enterprise_pricing_model");
    var discount :- Check(0.0 <= p.maxDiscount <= 100.0, "max_annual_discount_percent");
    var scope :- ParseChoice(x, p.growthScope, GROWTH_SCOPES, "growth_auto_remediation_scope");
    var boundary :- ParseChoice(x, p.proBoundary, PRO_BOUNDARIES, "pro_enforcement_boundary");
    var strategy :- ParseChoice(x, p.migrationStrategy, STRATEGIES, "migration_strategy");
    Success((model, strategy))
  }

  function PolicyAmounts(p: Policy, model: string, strategy: string): Result<()> {
    var days :- Check(0 <= p.windowDays && (strategy == "grandfather_timeboxed" ==> 0 < p.windowDays),
                      "migration_window_days");
    Check(if model in {"flat_floor", "hybrid"} then p.floor.Some? && 1.0 <= p.floor.value
          else p.floor.Some? ==> 0.0 <= p.floor.value, "enterprise_floor_usd_monthly")
  }

  /** `validate_policy_decisions`: complete, and whether price changes are guarded. */
  function PolicyVerdict(x: Texts, p: Policy, sufficient: bool, source: string): Result<(bool, bool)> {
    var choices :- PolicyChoices(x, p);
    var amounts :- PolicyAmounts(p, choices.0, choices.1);
    Success((true, (sufficient && source == "production_observed" && p.motionAllowed)
                   || (!p.motionAllowed && source == "synthetic_prelaunch")))
  }

  /** `validate_approvals` */
  function ApprovalsVerdict(x: Texts, a: Approvals, capturedAt: int): Result<bool> {
    var finance :- ParseText(x, a.financeOwner, "finance_owner");
    var product :- ParseText(x, a.productOwner, "product_owner");
    var market :- ParseText(x, a.marketOwner, "go_to_market_owner");
    var mode :- ParseChoice(x, a.mode, GOVERNANCE_MODES, "governance_mode");
    var distinct :- Check(mode == "segregated_owners" ==>
                            Lower(finance) != Lower(product) && Lower(finance) != Lower(market)
                            && Lower(product) != Lower(market),
                          "governance_mode");
    var recordRef :- ParseText(x, a.recordRef, "approval_record_ref");
    var time :- Check(a.approvedAt <= capturedAt, "approved_at");
    Success(true)
  }

  function CheckIds(x: Texts, ids: seq<string>, normalized: seq<string>): Result<seq<string>>
    decreases ids
  {
    if ids == [] then Success(normalized)
    else
      var id :- ParseText(x, ids[0], "required_decision_ids");
      CheckIds(x, ids[1..], normalized + [Upper(id)])
  }

  /** The state of the loop over the decision items. */
  datatype Progress = Progress(seen: set<string>, launch: bool, postlaunch: bool)

  /** The checks of an item up to its summary; the result is its id. */
  function ItemHead(x: Texts, item: Item, seen: set<string>): Result<string> {
    var rawId :- ParseText(x, item.id, "id");
    var id := Upper(rawId);
    var known :- Check(id !in seen && id in REQUIRED_IDS, "id");
    var ownerFunction :- ParseText(x, item.ownerFunction, "owner_function");
    var knownFunction :- Check(Lower(ownerFunction) in OWNER_FUNCTIONS, "owner_function");
    var owner :- ParseText(x, item.owner, "owner");
    var summary :- ParseText(x, item.summary, "decision_summary");
    Success(id)
  }

  /** What a scheduled item has to carry. */
  function Commitment(x: Texts, item: Item, capturedAt: int): Result<()> {
    var target :- Check(item.targetDate.Some?, "target_date");
    var criteria :- ParseText(x, item.criteria, "success_criteria");
    Check(item.targetDate.value >= DateOf(capturedAt), "target_date")
  }

  /** The remaining checks; the result is the resolution. */
  function ItemResolution(x: Texts, item: Item, capturedAt: int): Result<string> {
    var rawResolution :- ParseText(x, item.resolution, "resolution");
    var resolution := Lower(rawResolution);
    var known :- Check(resolution in {"locked_prelaunch", "scheduled_postlaunch"}, "resolution");
    var recordRef :- ParseText(x, item.recordRef, "approval_record_ref");
    var time :- Check(item.approvedAt <= capturedAt, "approved_at");
    if resolution != "scheduled_postlaunch" then Success(resolution)
    else
      var committed :- Commitment(x, item, capturedAt);
      Success(resolution)
  }

  function CheckItem(x: Texts, item: Item, capturedAt: int, p: Progress): Result<Progress> {
    var id :- ItemHead(x, item, p.seen);
    var resolution :- ItemResolution(x, item, capturedAt);
    Success(Progress(p.seen + {id}, p.launch && (item.launchBlocking ==> resolution == "locked_prelaunch"),
                     p.postlaunch && (resolution == "scheduled_postlaunch" ==> Strip(item.criteria) != "")))
  }

  function CheckItems(x: Texts, items: seq<Item>, capturedAt: int, p: Progress): Result<Progress>
    decreases items
  {
    if items == [] then Success(p)
    else
      var next :- CheckItem(x, items[0], capturedAt, p);
      CheckItems(x, items[1..], capturedAt, next)
  }

  const NOTHING_SEEN := Progress({}, true, true)

  /** `validate_decision_backlog` */
  function BacklogVerdict(x: Texts, ids: seq<string>, items: seq<Item>, capturedAt: int): Result<(bool, bool, bool)> {
    var present :- Check(ids != [], "required_decision_ids");
    var normalized :- CheckIds(x, ids, []);
    var canonical :- Check(AsSet(normalized) == AsSet(REQUIRED_IDS), "required_decision_ids");
    var some :- Check(items != [], "decision_items");
    var progress :- CheckItems(x, items, capturedAt, NOTHING_SEEN);
    var complete :- Check(AsSet(REQUIRED_IDS) <= progress.seen, "decision_items");
    Success((true, progress.launch, progress.postlaunch))
  }

  method ValidateDecisionBacklog(x: Texts, ids: seq<string>, items: seq<Item>, capturedAt: int)
    returns (r: Result<(bool, bool, bool)>)
    ensures r == BacklogVerdict(x, ids, items, capturedAt)
  {
    var present :- Check(ids != [], "required_decision_ids");
    var normalized: seq<string> := [];
    assert ids[0..] == ids;
    for i := 0 to |ids|
      invariant CheckIds(x, ids[i..], normalized) == CheckIds(x, ids, [])
    {
      assert ids[i..][1..] == ids[i + 1..];
      var id :- ParseText(x, ids[i], "required_decision_ids");
      normalized := normalized + [Upper(id)];
    }
    var canonical :- Check(AsSet(normalized) == AsSet(REQUIRED_IDS), "required_decision_ids");
    var some :- Check(items != [], "decision_items");
    var progress := NOTHING_SEEN;
    assert items[0..] == items;
    for i := 0 to |items|
      invariant CheckItems(x, items[i..], capturedAt, progress) == CheckItems(x, items, capturedAt, NOTHING_SEEN)
    {
      assert items[i..][1..] == items[i + 1..];
      progress :- CheckItem(x, items[i], capturedAt, progress);
    }
    var complete :- Check(AsSet(REQUIRED_IDS) <= progress.seen, "decision_items");
    return Success((true, progress.launch, progress.postlaunch));
  }

  predicate AllTrue(g: Gates) {
    g.policy && g.window && g.approvals && g.motion && g.coverage && g.launch && g.postlaunch
  }

  /** `verify_evidence`, at the time `now`, for artifacts at most `maxAge` seconds old. */
  function Verdict(x: Texts, p: Payload, now: int, maxAge: int): Result<()> {
    var age :- Check(now - p.capturedAt <= maxAge, "captured_at");
    var windowed :- Check(WindowOk(x, p.start, p.end), "window");
    var telemetry :- TelemetryVerdict(x, p.telemetry);
    var policy :- PolicyVerdict(x, p.policy, telemetry.0, telemetry.1);
    var approvals :- ApprovalsVerdict(x, p.approvals, p.capturedAt);
    var backlog :- BacklogVerdict(x, p.requiredIds, p.items, p.capturedAt);
    var computed := Gates(policy.0, telemetry.0, approvals, policy.1, backlog.0, backlog.1, backlog.2);
    var matching :- Check(p.gates == computed, "gate_results");
    Check(AllTrue(computed), "gate_results")
  }

  predicate WindowOk(x: Texts, start: string, end: string) {
    var s, e := x.isoTime(start), x.isoTime(end);
    s.Some? && e.Some? && s.value <= e.value
  }

  // ------------------------------------------------------------- the generator

  function InfraPercent(tier: string): real {
    if tier == "starter" then 8.0 else if tier == "growth" then 7.5 else if tier == "pro" then 6.8 else 6.0
  }

  function SupportCost(tier: string): real {
    if tier == "starter" then 6.0 else if tier == "growth" then 9.0 else if tier == "pro" then 16.0 else 30.0
  }

  function NonNegative(c: Conversions, j: Json, field: string): (r: Result<real>)
    ensures r.Success? ==> 0.0 <= r.value
  {
    ParseFloat(c, j, field, Some(0.0), None)
  }

  function Factor(c: Conversions, pricing: Json): (r: Result<real>)
    ensures r.Success? ==> 0.0 <= r.value <= 1.0
  {
    if !pricing.JObj? || Field(pricing.fields, "annual_monthly_factor").JNull? then Success(1.0)
    else
      var factor :- NonNegative(c, Field(pricing.fields, "annual_monthly_factor"), "annual_monthly_factor");
      Success(if factor > 0.0 then Min(factor, 1.0) else 1.0)
  }

  function Discounted(mrr: real, factor: real): real {
    Round(mrr * factor, Six)
  }

  function InfraCogs(effective: real, percent: real): real {
    effective * (percent / 100.0)
  }

  function SupportCogs(active: int, each: real): real {
    active as real * each
  }

  function RoundedRow(tier: string, mrr: real, effective: real, llm: real, infra: real, support: real): EconRow {
    EconRow(tier, Round(mrr, Six), Round(Min(effective, mrr), Six), Round(llm, Six), Round(infra, Six),
            Round(support, Six))
  }

  /** The row of a tier, with the rounding in the order the generator does it. */
  function RowOf(tier: string, mrr: real, factor: real, llm: real, active: int): EconRow {
    var effective := Discounted(mrr, factor);
    RoundedRow(tier, mrr, effective, llm, InfraCogs(effective, InfraPercent(tier)),
               SupportCogs(active, SupportCost(tier)))
  }

  datatype Rows = Rows(revenue: map<string, Object>, llm: map<string, Object>, subscriptions: map<string, Object>,
                       pricing: Object)

  function TierRow(c: Conversions, rows: Rows, tier: string): Result<EconRow> {
    if tier !in rows.revenue || tier !in rows.llm || tier !in rows.subscriptions then Failure(tier)
    else
      var mrr :- NonNegative(c, GetOr(rows.revenue[tier], "gross_mrr_usd", JReal(0.0)), "gross_mrr_usd");
      var factor :- Factor(c, Field(rows.pricing, tier));
      var llm :- NonNegative(c, GetOr(rows.llm[tier], "total_cost_usd", JReal(0.0)), "total_cost_usd");
      var active :- ParseInt(c, GetOr(rows.subscriptions[tier], "active_subscriptions", JInt(0)),
                             "active_subscriptions", Some(0));
      Success(RowOf(tier, mrr, factor, llm, active))
  }

  type RowMaker = string -> Result<EconRow>

  function BuildRows(make: RowMaker, tiers: seq<string>, built: seq<EconRow>): Result<seq<EconRow>>
    decreases tiers
  {
    if tiers == [] then Success(built)
    else
      var row :- make(tiers[0]);
      BuildRows(make, tiers[1..], built + [row])
  }

  function RowsField(telemetry: Object, field: string): Result<seq<Json>> {
    var j := Field(telemetry, field);
    if j.JList? then Success(j.items) else Failure(field)
  }

  function Economics(c: Conversions, telemetry: Object): Result<seq<EconRow>> {
    var revenueRows :- RowsField(telemetry, "tier_revenue_inputs");
    var revenue :- IndexRows(c, revenueRows, "tier_revenue_inputs", map[]);
    var llmRows :- RowsField(telemetry, "tier_llm_usage");
    var llm :- IndexRows(c, llmRows, "tier_llm_usage", map[]);
    var subscriptionRows :- RowsField(telemetry, "tier_subscription_snapshot");
    var subscriptions :- IndexRows(c, subscriptionRows, "tier_subscription_snapshot", map[]);
    var pricing := Field(telemetry, "pricing_reference");
    if !pricing.JObj? then Failure("pricing_reference")
    else
      var rows := Rows(revenue, llm, subscriptions, pricing.fields);
      BuildRows(tier => TierRow(c, rows, tier), SORTED_TIERS, [])
  }

  method IndexField(c: Conversions, telemetry: Object, field: string) returns (r: Result<map<string, Object>>)
    ensures r == (var rows := RowsField(telemetry, field);
                  if rows.Failure? then Failure(rows.error) else IndexRows(c, rows.value, field, map[]))
  {
    var rows :- RowsField(telemetry, field);
    r := IndexByTier(c, rows, field);
  }

  /** The loop over the tiers. */
  method BuildTierRows(c: Conversions, rows: Rows) returns (r: Result<seq<EconRow>>)
    ensures r == BuildRows(tier => TierRow(c, rows, tier), SORTED_TIERS, [])
  {
    ghost var make: RowMaker := tier => TierRow(c, rows, tier);
    var built: seq<EconRow> := [];
    assert SORTED_TIERS[0..] == SORTED_TIERS;
    for i := 0 to |SORTED_TIERS|
      invariant BuildRows(make, SORTED_TIERS[i..], built) == BuildRows(make, SORTED_TIERS, [])
    {
      assert SORTED_TIERS[i..][1..] == SORTED_TIERS[i + 1..];
      assert make(SORTED_TIERS[i]) == TierRow(c, rows, SORTED_TIERS[i]);
      var row :- TierRow(c, rows, SORTED_TIERS[i]);
      built := built + [row];
    }
    return Success(built);
  }

  /** `_build_tier_unit_economics` */
  method BuildTierUnitEconomics(c: Conversions, telemetry: Object) returns (r: Result<seq<EconRow>>)
    ensures r == Economics(c, telemetry)
  {
    var revenue :- IndexField(c, telemetry, "tier_revenue_inputs");
    var llm :- IndexField(c, telemetry, "tier_llm_usage");
    var subscriptions :- IndexField(c, telemetry, "tier_subscription_snapshot");
    var pricing := Field(telemetry, "pricing_reference");
    if !pricing.JObj? {
      return Failure("pricing_reference");
    }
    r := BuildTierRows(c, Rows(revenue, llm, subscriptions, pricing.fields));
  }

  const CRITERIA :=
    "Joint finance and product " + "sign-off captured in next " + "monthly operating review."

  /** `_build_decision_item` */
  function BuildItem(x: Texts, id: string, capturedAt: int): Item {
    var finance := StartsWith(id, "FIN-");
    var postlaunch := id in POSTLAUNCH;
    var approvedAt := capturedAt - HOUR;
    Item(id, if finance then "finance" else "product",
         if finance then "finance-owner@valdrics.local" else "product-owner@valdrics.local",
         id + " policy resolution approved " + "for release governance.",
         if postlaunch then "scheduled_postlaunch" else "locked_prelaunch",
         id in LAUNCH_BLOCKING, id + "-APPROVAL-" + x.dateText(DateOf(capturedAt)), approvedAt,
         if postlaunch then Some(DateOf(approvedAt + 30 * DAY)) else None,
         if postlaunch then CRITERIA else "")
  }

  function BuildItems(make: string -> Item, ids: seq<string>): seq<Item> {
    if ids == [] then [] else [make(ids[0])] + BuildItems(make, ids[1..])
  }

  function DecisionItems(x: Texts, capturedAt: int): seq<Item> {
    BuildItems(id => BuildItem(x, id, capturedAt), REQUIRED_IDS)
  }

  /** `_build_payload` */
  function BuildPayload(c: Conversions, x: Texts, telemetry: Object, months: int, capturedAt: int): Result<Payload> {
    if months < 2 then Failure("months_observed")
    else
      var window := Field(telemetry, "window");
      if !window.JObj? then Failure("window")
      else
        var start, end := TextField(c.show, window.fields, "start"), TextField(c.show, window.fields, "end");
        if start == "" || end == "" then Failure("window")
        else
          var rows :- Economics(c, telemetry);
          Success(Payload(
            capturedAt, start, end, Telemetry(months, "synthetic_prelaunch", rows),
            Policy("hybrid", Some(799.0), 20.0, false, "nonprod_only", "required_for_prod_enforcement",
                   "grandfather_timeboxed", 90),
            Approvals("finance-owner@valdrics.local", "product-owner@valdrics.local", "gtm-owner@valdrics.local",
                      "founder_acting_roles_prelaunch", "PKG-FIN-APPROVAL-" + x.dateText(DateOf(capturedAt)),
                      capturedAt - HOUR),
            REQUIRED_IDS, DecisionItems(x, capturedAt),
            Gates(true, true, true, true, true, true, true)))
  }

  // ------------------------------------------------------ what the generator writes

  /** The placeholder search does not find anything in the generator's own wording. */
  ghost predicate CleanWording(x: Texts) {
    && CleanSet(x, REQUIRED_TIERS) && CleanSet(x, POLICY_WORDS) && CleanSet(x, APPROVAL_WORDS)
    && CleanSet(x, ITEM_WORDS)
    && (forall id | id in REQUIRED_IDS :: CleanId(x, id))
    && (forall day :: !x.hasPlaceholder(Strip("PKG-FIN-APPROVAL-" + x.dateText(day))))
  }

  predicate CleanSet(x: Texts, words: set<string>) {
    forall word | word in words :: !x.hasPlaceholder(word)
  }

  ghost predicate CleanId(x: Texts, id: string) {
    && !x.hasPlaceholder(id)
    && !x.hasPlaceholder(Strip(id + " policy resolution approved " + "for release governance."))
    && forall day :: !x.hasPlaceholder(Strip(id + "-APPROVAL-" + x.dateText(day)))
  }

  const POLICY_WORDS :=
    {"synthetic_prelaunch", "hybrid", "nonprod_only", "required_for_prod_enforcement", "grandfather_timeboxed"}

  const APPROVAL_WORDS :=
    {"finance-owner@valdrics.local", "product-owner@valdrics.local", "gtm-owner@valdrics.local",
     "founder_acting_roles_prelaunch"}

  const ITEM_WORDS :=
    {"finance", "product", "finance-owner@valdrics.local", "product-owner@valdrics.local", "locked_prelaunch",
     "scheduled_postlaunch", CRITERIA}

  lemma NotBlank(text: string)
    requires text != "" && !IsSpace(text[0])
    ensures Strip(text) != ""
  {
    assert text[..0] + [text[0]] + text[1..] == text;
    StripHead(text[..0], text[0], text[1..]);
  }

  lemma WordAccepted(x: Texts, words: set<string>, text: string, field: string)
    requires CleanSet(x, words) && text in words && text != "" && Trimmed(text)
    ensures ParseText(x, text, field) == Success(text)
  {
    StripOfTrimmed(text);
  }

  lemma TextAccepted(x: Texts, text: string, field: string)
    requires text != "" && !IsSpace(text[0]) && !x.hasPlaceholder(Strip(text))
    ensures ParseText(x, text, field).Success?
  {
    NotBlank(text);
  }

  // ------------------------------------------------------------------- telemetry

  predicate RowConsistent(row: EconRow) {
    0.0 <= row.effective <= row.mrr && 0.0 <= row.llm && 0.0 <= row.infra && 0.0 <= row.support
  }

  lemma NonNegativeProduct(a: real, b: real)
    requires 0.0 <= a && 0.0 <= b
    ensures 0.0 <= a * b
  {
  }

  lemma RoundsNonNegative(a: real)
    requires 0.0 <= a
    ensures 0.0 <= Round(a, Six)
  {
    WholeOnGrid(0, Six);
    RoundAtLeast(a, 0.0, Six);
  }

  /** After both roundings the effective revenue is still at most the revenue. */
  lemma RowIsConsistent(tier: string, mrr: real, factor: real, llm: real, active: int)
    requires 0.0 <= mrr && 0.0 <= factor && 0.0 <= llm && 0 <= active
    ensures RowConsistent(RowOf(tier, mrr, factor, llm, active))
  {
    var effective := Round(mrr * factor, Six);
    NonNegativeProduct(mrr, factor);
    RoundsNonNegative(mrr * factor);
    RoundsNonNegative(Min(effective, mrr));
    RoundMonotone(Min(effective, mrr), mrr, Six);
    RoundsNonNegative(llm);
    NonNegativeProduct(effective, InfraPercent(tier) / 100.0);
    RoundsNonNegative(effective * (InfraPercent(tier) / 100.0));
    NonNegativeProduct(active as real, SupportCost(tier));
    RoundsNonNegative(active as real * SupportCost(tier));
  }

  lemma TierRowIsConsistent(c: Conversions, rows: Rows, tier: string)
    requires TierRow(c, rows, tier).Success?
    ensures RowConsistent(TierRow(c, rows, tier).value) && TierRow(c, rows, tier).value.tier == tier
  {
    var mrr := NonNegative(c, GetOr(rows.revenue[tier], "gross_mrr_usd", JReal(0.0)), "gross_mrr_usd").value;
    var factor := Factor(c, Field(rows.pricing, tier)).value;
    var llm := NonNegative(c, GetOr(rows.llm[tier], "total_cost_usd", JReal(0.0)), "total_cost_usd").value;
    var active := ParseInt(c, GetOr(rows.subscriptions[tier], "active_subscriptions", JInt(0)), "active_subscriptions",
                           Some(0)).value;
    RowIsConsistent(tier, mrr, factor, llm, active);
  }

  lemma {:induction false} BuiltRowsAre(make: RowMaker, tiers: seq<string>, built: seq<EconRow>)
    requires BuildRows(make, tiers, built).Success?
    ensures var rows := BuildRows(make, tiers, built).value;
            && |rows| == |built| + |tiers| && rows[..|built|] == built
            && forall i | 0 <= i < |tiers| :: make(tiers[i]) == Success(rows[|built| + i])
    decreases tiers
  {
    var rows := BuildRows(make, tiers, built).value;
    if tiers == [] {
      assert rows[..|built|] == built;
    } else {
      var row := make(tiers[0]).value;
      BuiltRowsAre(make, tiers[1..], built + [row]);
      assert rows[|built|] == rows[..|built| + 1][|built|] == row;
      assert rows[..|built|] == rows[..|built| + 1][..|built|] == built;
      forall i | 0 <= i < |tiers| ensures make(tiers[i]) == Success(rows[|built| + i]) {
        if i > 0 {
          assert tiers[i] == tiers[1..][i - 1] && rows[|built| + i] == rows[|built + [row]| + (i - 1)];
        }
      }
    }
  }

  predicate TierRows(rows: seq<EconRow>) {
    |rows| == |SORTED_TIERS| && forall i | 0 <= i < |rows| :: RowConsistent(rows[i]) && rows[i].tier == SORTED_TIERS[i]
  }

  lemma EconomicsConsistent(c: Conversions, telemetry: Object)
    requires Economics(c, telemetry).Success?
    ensures TierRows(Economics(c, telemetry).value)
  {
    var revenue := IndexRows(c, RowsField(telemetry, "tier_revenue_inputs").value, "tier_revenue_inputs", map[]).value;
    var llm := IndexRows(c, RowsField(telemetry, "tier_llm_usage").value, "tier_llm_usage", map[]).value;
    var subscriptions :=
      IndexRows(c, RowsField(telemetry, "tier_subscription_snapshot").value, "tier_subscription_snapshot", map[]).value;
    var parts := Rows(revenue, llm, subscriptions, Field(telemetry, "pricing_reference").fields);
    var make: RowMaker := tier => TierRow(c, parts, tier);
    var rows := Economics(c, telemetry).value;
    BuiltRowsAre(make, SORTED_TIERS, []);
    forall i | 0 <= i < |rows| ensures RowConsistent(rows[i]) && rows[i].tier == SORTED_TIERS[i] {
      assert make(SORTED_TIERS[i]) == Success(rows[0 + i]);
      TierRowIsConsistent(c, parts, SORTED_TIERS[i]);
    }
  }

  lemma EveryTier(tier: string)
    requires tier in SORTED_TIERS
    ensures tier == "enterprise" || tier == "growth" || tier == "pro" || tier == "starter"
  {
  }

  predicate NoCapitals(s: string) {
    forall i | 0 <= i < |s| :: !('A' <= s[i] <= 'Z')
  }

  lemma TierText(tier: string)
    requires tier in SORTED_TIERS
    ensures tier in REQUIRED_TIERS && tier != "" && Trimmed(tier) && NoCapitals(tier)
  {
    EveryTier(tier);
  }

  lemma LowerOf(text: string)
    requires NoCapitals(text)
    ensures Lower(text) == text
  {
    LowerKeeps(text);
  }

  lemma RowAccepted(x: Texts, row: EconRow)
    requires CleanSet(x, REQUIRED_TIERS) && row.tier in SORTED_TIERS && RowConsistent(row)
    ensures CheckRow(x, row) == Success(row.tier)
  {
    TierText(row.tier);
    LowerOf(row.tier);
    WordAccepted(x, REQUIRED_TIERS, row.tier, "tier");
  }

  lemma {:induction false} RowsAccepted(x: Texts, rows: seq<EconRow>, seen: set<string>)
    requires forall i | 0 <= i < |rows| :: CheckRow(x, rows[i]) == Success(rows[i].tier)
    ensures var r := CheckRows(x, rows, seen);
            r.Success? && seen <= r.value && forall i | 0 <= i < |rows| :: rows[i].tier in r.value
    decreases rows
  {
    if rows != [] {
      assert CheckRow(x, rows[0]) == Success(rows[0].tier);
      assert forall i | 0 <= i < |rows| - 1 :: rows[1..][i] == rows[i + 1];
      RowsAccepted(x, rows[1..], seen + {rows[0].tier});
      assert forall i | 0 < i < |rows| :: rows[i] == rows[1..][i - 1];
    }
  }

  lemma SourceAccepted(x: Texts)
    requires CleanSet(x, POLICY_WORDS)
    ensures ParseText(x, "synthetic_prelaunch", "source_type") == Success("synthetic_prelaunch")
  {
    WordAccepted(x, POLICY_WORDS, "synthetic_prelaunch", "source_type");
  }

  lemma TiersSeen(rows: seq<EconRow>, seen: set<string>)
    requires TierRows(rows) && forall i | 0 <= i < |rows| :: rows[i].tier in seen
    ensures REQUIRED_TIERS <= seen
  {
    assert rows[0].tier == "enterprise" && rows[1].tier == "growth" && rows[2].tier == "pro"
           && rows[3].tier == "starter";
  }

  lemma TelemetryAccepted(x: Texts, months: int, rows: seq<EconRow>)
    requires CleanSet(x, REQUIRED_TIERS) && CleanSet(x, POLICY_WORDS) && months >= 2 && TierRows(rows)
    ensures TelemetryVerdict(x, Telemetry(months, "synthetic_prelaunch", rows)) ==
            Success((true, "synthetic_prelaunch"))
  {
    SourceAccepted(x);
    forall i | 0 <= i < |rows| ensures CheckRow(x, rows[i]) == Success(rows[i].tier) {
      assert rows[i].tier == SORTED_TIERS[i];
      RowAccepted(x, rows[i]);
    }
    RowsAccepted(x, rows, {});
    TiersSeen(rows, CheckRows(x, rows, {}).value);
  }

  // --------------------------------------------------------------------- the ids

  predicate CanonicalId(id: string) {
    |id| == 7 && Trimmed(id) && forall i | 0 <= i < |id| :: !('a' <= id[i] <= 'z')
  }

  lemma PkgIdsCanonical()
    ensures forall i | 0 <= i < |PKG_IDS| :: CanonicalId(PKG_IDS[i])
  {
  }

  lemma FinIdsCanonical()
    ensures forall i | 0 <= i < |FIN_IDS| :: CanonicalId(FIN_IDS[i])
  {
  }

  lemma PkgIdsDistinct()
    ensures forall i, j | 0 <= i < j < |PKG_IDS| :: PKG_IDS[i] != PKG_IDS[j]
  {
  }

  lemma FinIdsDistinct()
    ensures forall i, j | 0 <= i < j < |FIN_IDS| :: FIN_IDS[i] != FIN_IDS[j]
  {
  }

  lemma IdPrefixes()
    ensures forall i | 0 <= i < |PKG_IDS| :: PKG_IDS[i][0] == 'P'
    ensures forall i | 0 <= i < |FIN_IDS| :: FIN_IDS[i][0] == 'F'
  {
  }

  lemma JoinDistinct(a: seq<string>, b: seq<string>)
    requires forall i, j | 0 <= i < j < |a| :: a[i] != a[j]
    requires forall i, j | 0 <= i < j < |b| :: b[i] != b[j]
    requires forall i | 0 <= i < |a| :: a[i] != [] && a[i][0] == 'P'
    requires forall i | 0 <= i < |b| :: b[i] != [] && b[i][0] == 'F'
    ensures Distinct(a + b)
  {
    var all := a + b;
    forall i, j | 0 <= i < j < |all| ensures all[i] != all[j] {
      assert all[i] == if i < |a| then a[i] else b[i - |a|];
      assert all[j] == if j < |a| then a[j] else b[j - |a|];
    }
  }

  predicate Distinct(ids: seq<string>) {
    forall i, j | 0 <= i < j < |ids| :: ids[i] != ids[j]
  }

  lemma JoinCanonical(a: seq<string>, b: seq<string>)
    requires forall i | 0 <= i < |a| :: CanonicalId(a[i])
    requires forall i | 0 <= i < |b| :: CanonicalId(b[i])
    ensures forall i | 0 <= i < |a + b| :: CanonicalId((a + b)[i])
  {
  }

  /** The canonical ids are distinct, trimmed and in capitals. */
  lemma RequiredIds()
    ensures Distinct(REQUIRED_IDS)
    ensures forall i | 0 <= i < |REQUIRED_IDS| :: CanonicalId(REQUIRED_IDS[i])
  {
    PkgIdsCanonical();
    FinIdsCanonical();
    PkgIdsDistinct();
    FinIdsDistinct();
    IdPrefixes();
    JoinDistinct(PKG_IDS, FIN_IDS);
    JoinCanonical(PKG_IDS, FIN_IDS);
  }

  lemma {:induction false} UpperOf(id: string)
    requires forall i | 0 <= i < |id| :: !('a' <= id[i] <= 'z')
    ensures Upper(id) == id
  {
    if id != [] {
      UpperOf(id[1..]);
    }
  }

  predicate IdKept(x: Texts, id: string) {
    ParseText(x, id, "required_decision_ids") == Success(id) && ParseText(x, id, "id") == Success(id) && Upper(id) == id
  }

  lemma IdIsKept(x: Texts, id: string)
    requires CanonicalId(id) && !x.hasPlaceholder(id)
    ensures IdKept(x, id)
  {
    StripOfTrimmed(id);
    UpperOf(id);
  }

  lemma {:induction false} IdsKept(x: Texts, ids: seq<string>, normalized: seq<string>)
    requires forall i | 0 <= i < |ids| :: IdKept(x, ids[i])
    ensures CheckIds(x, ids, normalized) == Success(normalized + ids)
    decreases ids
  {
    if ids == [] {
      assert normalized + ids == normalized;
    } else {
      assert IdKept(x, ids[0]);
      assert forall i | 0 <= i < |ids| - 1 :: ids[1..][i] == ids[i + 1];
      IdsKept(x, ids[1..], normalized + [ids[0]]);
      assert normalized + [ids[0]] + ids[1..] == normalized + ids;
    }
  }

  // ------------------------------------------------------------ the decision items

  lemma LaunchIsNotPostlaunch(id: string)
    ensures id in LAUNCH_BLOCKING ==> id !in POSTLAUNCH
  {
  }

  lemma OwnerWords()
    ensures Trimmed("finance") && Trimmed("product") && NoCapitals("finance") && NoCapitals("product")
    ensures Trimmed("finance-owner@valdrics.local") && Trimmed("product-owner@valdrics.local")
  {
  }

  lemma ResolutionWords()
    ensures Trimmed("locked_prelaunch") && Trimmed("scheduled_postlaunch") && CRITERIA != "" && Trimmed(CRITERIA)
    ensures NoCapitals("locked_prelaunch") && NoCapitals("scheduled_postlaunch")
  {
    assert CRITERIA[0] == 'J' && CRITERIA[|CRITERIA| - 1] == '.';
  }

  lemma FunctionAccepted(x: Texts, ownerFunction: string)
    requires CleanSet(x, ITEM_WORDS) && (ownerFunction == "finance" || ownerFunction == "product")
    ensures ParseText(x, ownerFunction, "owner_function") == Success(ownerFunction)
    ensures Lower(ownerFunction) in OWNER_FUNCTIONS
  {
    OwnerWords();
    WordAccepted(x, ITEM_WORDS, ownerFunction, "owner_function");
    LowerOf(ownerFunction);
  }

  lemma OwnerAccepted(x: Texts, owner: string)
    requires CleanSet(x, ITEM_WORDS)
    requires owner == "finance-owner@valdrics.local" || owner == "product-owner@valdrics.local"
    ensures ParseText(x, owner, "owner").Success?
  {
    OwnerWords();
    WordAccepted(x, ITEM_WORDS, owner, "owner");
  }

  lemma ResolutionAccepted(x: Texts, resolution: string)
    requires CleanSet(x, ITEM_WORDS) && (resolution == "locked_prelaunch" || resolution == "scheduled_postlaunch")
    ensures ParseText(x, resolution, "resolution") == Success(resolution) && Lower(resolution) == resolution
  {
    ResolutionWords();
    WordAccepted(x, ITEM_WORDS, resolution, "resolution");
    LowerOf(resolution);
  }

  lemma CriteriaAccepted(x: Texts)
    requires CleanSet(x, ITEM_WORDS)
    ensures ParseText(x, CRITERIA, "success_criteria") == Success(CRITERIA) && Strip(CRITERIA) != ""
  {
    ResolutionWords();
    StripOfTrimmed(CRITERIA);
    WordAccepted(x, ITEM_WORDS, CRITERIA, "success_criteria");
  }

  lemma IdTextsAccepted(x: Texts, id: string, day: int)
    requires CleanId(x, id) && CanonicalId(id)
    ensures ParseText(x, id + " policy resolution approved " + "for release governance.", "decision_summary").Success?
    ensures ParseText(x, id + "-APPROVAL-" + x.dateText(day), "approval_record_ref").Success?
  {
    var summary := id + " policy resolution approved " + "for release governance.";
    var recordRef := id + "-APPROVAL-" + x.dateText(day);
    assert summary[0] == id[0] && recordRef[0] == id[0];
    TextAccepted(x, summary, "decision_summary");
    TextAccepted(x, recordRef, "approval_record_ref");
  }

  lemma TargetDateLater(capturedAt: int)
    ensures DateOf(capturedAt - HOUR + 30 * DAY) >= DateOf(capturedAt)
  {
  }

  lemma HeadPasses(x: Texts, item: Item, id: string, seen: set<string>)
    requires ParseText(x, item.id, "id") == Success(id) && Upper(id) == id && id in REQUIRED_IDS && id !in seen
    requires ParseText(x, item.ownerFunction, "owner_function").Success?
    requires Lower(ParseText(x, item.ownerFunction, "owner_function").value) in OWNER_FUNCTIONS
    requires ParseText(x, item.owner, "owner").Success? && ParseText(x, item.summary, "decision_summary").Success?
    ensures ItemHead(x, item, seen) == Success(id)
  {
  }

  lemma LockedPasses(x: Texts, item: Item, capturedAt: int)
    requires CleanSet(x, ITEM_WORDS) && item.resolution == "locked_prelaunch"
    requires ParseText(x, item.recordRef, "approval_record_ref").Success? && item.approvedAt <= capturedAt
    ensures ItemResolution(x, item, capturedAt) == Success(item.resolution)
  {
    ResolutionAccepted(x, item.resolution);
  }

  lemma ScheduledPasses(x: Texts, item: Item, capturedAt: int)
    requires CleanSet(x, ITEM_WORDS) && item.resolution == "scheduled_postlaunch"
    requires Commitment(x, item, capturedAt).Success?
    requires ParseText(x, item.recordRef, "approval_record_ref").Success? && item.approvedAt <= capturedAt
    ensures ItemResolution(x, item, capturedAt) == Success(item.resolution)
  {
    ResolutionAccepted(x, item.resolution);
  }

  /** Whether an item gets through the loop does not depend on the items before it, only on its id
      being new. */
  ghost predicate Passes(x: Texts, item: Item, id: string, capturedAt: int) {
    forall p: Progress | id !in p.seen :: CheckItem(x, item, capturedAt, p) == Success(p.(seen := p.seen + {id}))
  }

  lemma HeadAccepted(x: Texts, id: string, capturedAt: int, seen: set<string>)
    requires CleanWording(x) && id in REQUIRED_IDS && CanonicalId(id) && id !in seen
    ensures ItemHead(x, BuildItem(x, id, capturedAt), seen) == Success(id)
  {
    var item := BuildItem(x, id, capturedAt);
    IdIsKept(x, id);
    FunctionAccepted(x, item.ownerFunction);
    OwnerAccepted(x, item.owner);
    IdTextsAccepted(x, id, DateOf(capturedAt));
    HeadPasses(x, item, id, seen);
  }

  lemma BuiltResolution(x: Texts, id: string, capturedAt: int)
    requires CleanWording(x) && id in REQUIRED_IDS && CanonicalId(id)
    ensures var item := BuildItem(x, id, capturedAt);
            ItemResolution(x, item, capturedAt) == Success(item.resolution)
  {
    var item := BuildItem(x, id, capturedAt);
    IdTextsAccepted(x, id, DateOf(capturedAt));
    if id in POSTLAUNCH {
      TargetDateLater(capturedAt);
      CriteriaAccepted(x);
      ScheduledPasses(x, item, capturedAt);
    } else {
      LockedPasses(x, item, capturedAt);
    }
  }

  /** Launch blockers are locked, and a scheduled item has its criteria. */
  lemma BuiltCommitments(x: Texts, id: string, capturedAt: int)
    requires CleanWording(x)
    ensures var item := BuildItem(x, id, capturedAt);
            && (item.launchBlocking ==> item.resolution == "locked_prelaunch")
            && (item.resolution == "scheduled_postlaunch" ==> Strip(item.criteria) != "")
  {
    LaunchIsNotPostlaunch(id);
    CriteriaAccepted(x);
  }

  lemma ItemAccepted(x: Texts, id: string, capturedAt: int)
    requires CleanWording(x) && id in REQUIRED_IDS && CanonicalId(id)
    ensures Passes(x, BuildItem(x, id, capturedAt), id, capturedAt)
  {
    BuiltResolution(x, id, capturedAt);
    BuiltCommitments(x, id, capturedAt);
    forall p: Progress | id !in p.seen
      ensures CheckItem(x, BuildItem(x, id, capturedAt), capturedAt, p) == Success(p.(seen := p.seen + {id}))
    {
      HeadAccepted(x, id, capturedAt, p.seen);
    }
  }

  lemma {:induction false} ItemsBuilt(make: string -> Item, ids: seq<string>)
    ensures |BuildItems(make, ids)| == |ids|
    ensures forall i | 0 <= i < |ids| :: BuildItems(make, ids)[i] == make(ids[i])
  {
    if ids != [] {
      ItemsBuilt(make, ids[1..]);
    }
  }

  lemma FirstPasses(x: Texts, items: seq<Item>, id: string, capturedAt: int, p: Progress)
    requires items != [] && Passes(x, items[0], id, capturedAt) && id !in p.seen
    ensures CheckItems(x, items, capturedAt, p) == CheckItems(x, items[1..], capturedAt, p.(seen := p.seen + {id}))
  {
    assert CheckItem(x, items[0], capturedAt, p) == Success(p.(seen := p.seen + {id}));
  }

  lemma {:induction false} ItemsAccepted(x: Texts, items: seq<Item>, ids: seq<string>, capturedAt: int, p: Progress)
    requires |items| == |ids| && Distinct(ids)
    requires forall i | 0 <= i < |ids| :: Passes(x, items[i], ids[i], capturedAt) && ids[i] !in p.seen
    ensures CheckItems(x, items, capturedAt, p) == Success(p.(seen := p.seen + AsSet(ids)))
    decreases ids
  {
    if ids == [] {
      assert p.seen + AsSet(ids) == p.seen;
    } else {
      var next := p.(seen := p.seen + {ids[0]});
      FirstPasses(x, items, ids[0], capturedAt, p);
      assert forall i | 0 <= i < |ids| - 1 :: ids[1..][i] == ids[i + 1] && items[1..][i] == items[i + 1];
      ItemsAccepted(x, items[1..], ids[1..], capturedAt, next);
      SeenNext(p, ids);
    }
  }

  lemma SeenNext(p: Progress, ids: seq<string>)
    requires ids != []
    ensures var next := p.(seen := p.seen + {ids[0]});
            next.(seen := next.seen + AsSet(ids[1..])) == p.(seen := p.seen + AsSet(ids))
  {
    AsSetCons(ids);
    assert p.seen + AsSet(ids) == p.seen + {ids[0]} + AsSet(ids[1..]);
  }

  lemma AsSetCons(ids: seq<string>)
    requires ids != []
    ensures AsSet(ids) == {ids[0]} + AsSet(ids[1..])
  {
    forall id | id in AsSet(ids[1..]) ensures id in AsSet(ids) {
      var i :| 0 <= i < |ids| - 1 && ids[1..][i] == id;
      assert ids[i + 1] == id;
    }
    forall id | id in AsSet(ids) ensures id == ids[0] || id in AsSet(ids[1..]) {
      var i :| 0 <= i < |ids| && ids[i] == id;
      if i > 0 {
        assert ids[1..][i - 1] == id;
      }
    }
  }

  lemma RequiredIdsKept(x: Texts, capturedAt: int)
    requires CleanWording(x)
    ensures forall i | 0 <= i < |REQUIRED_IDS| :: IdKept(x, REQUIRED_IDS[i])
    ensures forall i | 0 <= i < |REQUIRED_IDS| ::
              Passes(x, BuildItem(x, REQUIRED_IDS[i], capturedAt), REQUIRED_IDS[i], capturedAt)
  {
    RequiredIds();
    forall i | 0 <= i < |REQUIRED_IDS|
      ensures IdKept(x, REQUIRED_IDS[i])
      ensures Passes(x, BuildItem(x, REQUIRED_IDS[i], capturedAt), REQUIRED_IDS[i], capturedAt)
    {
      KeptAndPasses(x, REQUIRED_IDS[i], capturedAt);
    }
  }

  lemma KeptAndPasses(x: Texts, id: string, capturedAt: int)
    requires CleanWording(x) && id in REQUIRED_IDS && CanonicalId(id)
    ensures IdKept(x, id) && Passes(x, BuildItem(x, id, capturedAt), id, capturedAt)
  {
    IdIsKept(x, id);
    ItemAccepted(x, id, capturedAt);
  }

  /** A backlog of acceptable items for distinct ids passes when the ids are the canonical ones. */
  lemma BacklogOf(x: Texts, ids: seq<string>, items: seq<Item>, capturedAt: int)
    requires AsSet(ids) == AsSet(REQUIRED_IDS) && Distinct(ids) && ids != [] && |items| == |ids|
    requires forall i | 0 <= i < |ids| :: IdKept(x, ids[i]) && Passes(x, items[i], ids[i], capturedAt)
    ensures BacklogVerdict(x, ids, items, capturedAt) == Success((true, true, true))
  {
    IdsKept(x, ids, []);
    assert [] + ids == ids;
    ItemsAccepted(x, items, ids, capturedAt, NOTHING_SEEN);
    assert {} + AsSet(ids) == AsSet(ids);
  }

  lemma BacklogAccepted(x: Texts, capturedAt: int)
    requires CleanWording(x)
    ensures BacklogVerdict(x, REQUIRED_IDS, DecisionItems(x, capturedAt), capturedAt) == Success((true, true, true))
  {
    RequiredIds();
    RequiredIdsKept(x, capturedAt);
    var make := id => BuildItem(x, id, capturedAt);
    ItemsBuilt(make, REQUIRED_IDS);
    var items := DecisionItems(x, capturedAt);
    forall i | 0 <= i < |REQUIRED_IDS| ensures Passes(x, items[i], REQUIRED_IDS[i], capturedAt) {
      assert items[i] == make(REQUIRED_IDS[i]);
    }
    BacklogOf(x, REQUIRED_IDS, items, capturedAt);
  }

  // ---------------------------------------------------- policy, approvals, verdict

  lemma PolicyAccepted(x: Texts)
    requires CleanSet(x, POLICY_WORDS)
    ensures PolicyVerdict(x, Policy("hybrid", Some(799.0), 20.0, false, "nonprod_only", "required_for_prod_enforcement",
                                    "grandfather_timeboxed", 90), true, "synthetic_prelaunch") == Success((true, true))
  {
    WordAccepted(x, POLICY_WORDS, "hybrid", "enterprise_pricing_model");
    WordAccepted(x, POLICY_WORDS, "nonprod_only", "growth_auto_remediation_scope");
    WordAccepted(x, POLICY_WORDS, "required_for_prod_enforcement", "pro_enforcement_boundary");
    WordAccepted(x, POLICY_WORDS, "grandfather_timeboxed", "migration_strategy");
  }

  lemma ApprovalsAccepted(x: Texts, capturedAt: int)
    requires CleanWording(x)
    ensures ApprovalsVerdict(x, Approvals(
              "finance-owner@valdrics.local", "product-owner@valdrics.local", "gtm-owner@valdrics.local",
              "founder_acting_roles_prelaunch", "PKG-FIN-APPROVAL-" + x.dateText(DateOf(capturedAt)),
              capturedAt - HOUR),
              capturedAt) == Success(true)
  {
    var recordRef := "PKG-FIN-APPROVAL-" + x.dateText(DateOf(capturedAt));
    WordAccepted(x, APPROVAL_WORDS, "finance-owner@valdrics.local", "finance_owner");
    WordAccepted(x, APPROVAL_WORDS, "product-owner@valdrics.local", "product_owner");
    WordAccepted(x, APPROVAL_WORDS, "gtm-owner@valdrics.local", "go_to_market_owner");
    WordAccepted(x, APPROVAL_WORDS, "founder_acting_roles_prelaunch", "governance_mode");
    assert recordRef[0] == 'P';
    TextAccepted(x, recordRef, "approval_record_ref");
  }

  /** The validator accepts what the generator writes exactly when the artifact is not too old and
      the telemetry's window is a pair of times in order. */
  lemma GeneratedEvidenceAccepted(c: Conversions, x: Texts, telemetry: Object, months: int, capturedAt: int, now: int,
                                  maxAge: int)
    requires CleanWording(x) && BuildPayload(c, x, telemetry, months, capturedAt).Success?
    ensures var payload := BuildPayload(c, x, telemetry, months, capturedAt).value;
            Verdict(x, payload, now, maxAge).Success? <==>
            now - capturedAt <= maxAge && WindowOk(x, payload.start, payload.end)
  {
    var payload := BuildPayload(c, x, telemetry, months, capturedAt).value;
    EconomicsConsistent(c, telemetry);
    TelemetryAccepted(x, months, payload.telemetry.rows);
    PolicyAccepted(x);
    ApprovalsAccepted(x, capturedAt);
    BacklogAccepted(x, capturedAt);
  }
}
