/** Parsing shared by the two finance programs (`finance_committee_packet_common.py`). A failure
    carries the name of the field it is about. Amounts are exact reals. */
module FinanceCommon {
  import opened JsonValue
  import opened Text

  const TRACKED_TIERS := ["starter", "growth", "pro", "enterprise"]

  /** `float`, `int` and `str` of a JSON value; `None` when the conversion raises or the number is
      not finite. */
  datatype Conversions = Conversions(toFloat: Json -> Option<real>, toInt: Json -> Option<int>, show: Json -> string)

  /** Numbers convert to themselves. */
  ghost predicate Lawful(c: Conversions) {
    && (forall r :: c.toFloat(JReal(r)) == Some(r))
    && (forall i :: c.toInt(JInt(i)) == Some(i))
  }

  type Object = map<string, Json>

  /** `item.get(key, default)` */
  function GetOr(item: Object, key: string, default: Json): Json {
    if key in item then item[key] else default
  }

  function ParseFloat(c: Conversions, j: Json, field: string, low: Option<real>, high: Option<real>): (r: Result<real>)
    ensures r.Success? ==> (low.Some? ==> low.value <= r.value) && (high.Some? ==> r.value <= high.value)
  {
    match c.toFloat(j)
    case None => Failure(field)
    case Some(x) =>
      if (low.Some? && x < low.value) || (high.Some? && x > high.value) then Failure(field) else Success(x)
  }

  function ParseInt(c: Conversions, j: Json, field: string, low: Option<int>): (r: Result<int>)
    ensures r.Success? ==> (low.Some? ==> low.value <= r.value)
  {
    match c.toInt(j)
    case None => Failure(field)
    case Some(n) => if low.Some? && n < low.value then Failure(field) else Success(n)
  }

  /** `str(value or "").strip()`, which must not be empty. */
  function ParseNonEmpty(c: Conversions, j: Json, field: string): (r: Result<string>)
    ensures r.Success? ==> r.value != ""
  {
    var text := if !Truthy(j) then "" else if j.JStr? then Strip(j.s) else Strip(c.show(j));
    if text == "" then Failure(field) else Success(text)
  }

  /** A parsed number that is written back as a number parses to itself. */
  lemma FloatParsesBack(c: Conversions, x: real, field: string, low: Option<real>, high: Option<real>)
    requires Lawful(c)
    ensures ParseFloat(c, JReal(x), field, low, high) ==
            if (low.Some? ==> low.value <= x) && (high.Some? ==> x <= high.value) then Success(x) else Failure(field)
  {
  }

  function SafeMargin(revenue: real, cogs: real): real {
    if revenue <= 0.0 then (if cogs <= 0.0 then 100.0 else 0.0)
    else (revenue - cogs) / revenue * 100.0
  }

  // -------------------------------------------------------------- index_by_tier

  function TierName(c: Conversions, row: Json, field: string): Result<string> {
    if !row.JObj? then Failure(field)
    else
      var name :- ParseNonEmpty(c, Field(row.fields, "tier"), field);
      Success(Lower(name))
  }

  /** What the loop of `index_by_tier` makes of the remaining rows. */
  function IndexRows(c: Conversions, rows: seq<Json>, field: string, indexed: map<string, Object>)
    : Result<map<string, Object>>
    decreases rows
  {
    if rows == [] then Success(indexed)
    else
      var tier :- TierName(c, rows[0], field);
      if tier in indexed then Failure(field)
      else IndexRows(c, rows[1..], field, indexed[tier := rows[0].fields])
  }

  method IndexByTier(c: Conversions, rows: seq<Json>, field: string) returns (r: Result<map<string, Object>>)
    ensures r == IndexRows(c, rows, field, map[])
  {
    var indexed: map<string, Object> := map[];
    assert rows[0..] == rows;
    for i := 0 to |rows|
      invariant IndexRows(c, rows[i..], field, indexed) == IndexRows(c, rows, field, map[])
    {
      var row := rows[i];
      assert rows[i..][1..] == rows[i + 1..];
      if !row.JObj? {
        return Failure(field);
      }
      var name :- ParseNonEmpty(c, Field(row.fields, "tier"), field);
      var tier := Lower(name);
      if tier in indexed {
        return Failure(field);
      }
      indexed := indexed[tier := row.fields];
    }
    return Success(indexed);
  }

  /** Each row is found under its tier, no two rows are for the same tier, and there is nothing else. */
  ghost predicate IsIndex(c: Conversions, rows: seq<Json>, field: string, m: map<string, Object>) {
    && RowsFound(c, rows, field, m)
    && (forall i, k | 0 <= i < k < |rows| :: TierName(c, rows[i], field) != TierName(c, rows[k], field))
    && (forall tier | tier in m :: HasRow(c, rows, field, tier))
  }

  ghost predicate RowsFound(c: Conversions, rows: seq<Json>, field: string, m: map<string, Object>) {
    forall i | 0 <= i < |rows| ::
      var name := TierName(c, rows[i], field);
      name.Success? && name.value in m && m[name.value] == rows[i].fields
  }

  ghost predicate HasRow(c: Conversions, rows: seq<Json>, field: string, tier: string) {
    exists i | 0 <= i < |rows| :: TierName(c, rows[i], field) == Success(tier)
  }

  /** The index exists exactly when every row is an object with a tier of its own, and then holds
      exactly those rows. */
  lemma IndexedExactly(c: Conversions, rows: seq<Json>, field: string)
    ensures var r := IndexRows(c, rows, field, map[]);
            && (r.Success? ==> IsIndex(c, rows, field, r.value))
            && (r.Failure? ==> !exists m :: IsIndex(c, rows, field, m))
  {
    assert [] + rows == rows;
    IndexedFrom(c, [], rows, field, map[]);
  }

  lemma {:induction false} IndexedFrom(c: Conversions, done: seq<Json>, rest: seq<Json>, field: string,
                                       indexed: map<string, Object>)
    requires IsIndex(c, done, field, indexed)
    ensures var r := IndexRows(c, rest, field, indexed);
            && (r.Success? ==> IsIndex(c, done + rest, field, r.value))
            && (r.Failure? ==> !exists m :: IsIndex(c, done + rest, field, m))
    decreases rest
  {
    if rest == [] {
      assert done + rest == done;
    } else {
      var name := TierName(c, rest[0], field);
      if name.Success? && name.value !in indexed {
        IndexedNext(c, done, rest[0], field, indexed);
        assert done + [rest[0]] + rest[1..] == done + rest;
        IndexedFrom(c, done + [rest[0]], rest[1..], field, indexed[name.value := rest[0].fields]);
      } else {
        Unindexed(c, done, rest, field, indexed);
      }
    }
  }

  lemma Unindexed(c: Conversions, done: seq<Json>, rest: seq<Json>, field: string, indexed: map<string, Object>)
    requires IsIndex(c, done, field, indexed) && rest != []
    requires var name := TierName(c, rest[0], field); name.Success? ==> name.value in indexed
    ensures !exists m :: IsIndex(c, done + rest, field, m)
  {
    var name := TierName(c, rest[0], field);
    assert (done + rest)[|done|] == rest[0];
    if name.Success? {
      assert HasRow(c, done, field, name.value);
      var i :| 0 <= i < |done| && TierName(c, done[i], field) == name;
      assert (done + rest)[i] == done[i];
      NoIndex(c, done + rest, field, i, |done|);
    } else {
      NoIndex(c, done + rest, field, |done|, |done|);
    }
  }

  lemma NoIndex(c: Conversions, rows: seq<Json>, field: string, i: nat, k: nat)
    requires i <= k < |rows| && TierName(c, rows[i], field) == TierName(c, rows[k], field)
    requires i == k ==> TierName(c, rows[k], field).Failure?
    ensures !exists m :: IsIndex(c, rows, field, m)
  {
  }

  lemma IndexedNext(c: Conversions, rows: seq<Json>, row: Json, field: string, indexed: map<string, Object>)
    requires IsIndex(c, rows, field, indexed)
    requires TierName(c, row, field).Success? && TierName(c, row, field).value !in indexed
    ensures IsIndex(c, rows + [row], field, indexed[TierName(c, row, field).value := row.fields])
  {
    var name := TierName(c, row, field).value;
    var all, m := rows + [row], indexed[name := row.fields];
    assert all[|rows|] == row;
    forall tier | tier in m ensures HasRow(c, all, field, tier) {
      if tier != name {
        var i :| 0 <= i < |rows| && TierName(c, rows[i], field) == Success(tier);
        assert all[i] == rows[i];
      }
    }
    forall i, k | 0 <= i < k < |all| ensures TierName(c, all[i], field) != TierName(c, all[k], field) {
      assert all[i] == rows[i];
      if k < |rows| {
        assert all[k] == rows[k];
      }
    }
    forall i | 0 <= i < |all|
      ensures var key := TierName(c, all[i], field);
              key.Success? && key.value in m && m[key.value] == all[i].fields
    {
      if i < |rows| {
        assert all[i] == rows[i];
      }
    }
  }

  // ------------------------------------------------------------- tier maps

  predicate IsTierMap<T>(m: map<string, T>) {
    forall tier | tier in TRACKED_TIERS :: tier in m
  }

  function ParseTiers(c: Conversions, raw: Object, field: string, low: Option<real>, high: Option<real>,
                      tiers: seq<string>, values: map<string, real>): Result<map<string, real>>
    decreases tiers
  {
    if tiers == [] then Success(values)
    else
      var x :- ParseFloat(c, Field(raw, tiers[0]), field, low, high);
      ParseTiers(c, raw, field, low, high, tiers[1..], values[tiers[0] := x])
  }

  /** `parse_tier_float_map` */
  function TierFloatMap(c: Conversions, j: Json, field: string, low: Option<real>, high: Option<real>)
    : Result<map<string, real>>
  {
    if !j.JObj? then Failure(field)
    else ParseTiers(c, j.fields, field, low, high, TRACKED_TIERS, map[])
  }

  method ParseTierFloatMap(c: Conversions, payload: Object, field: string, low: Option<real>, high: Option<real>)
    returns (r: Result<map<string, real>>)
    ensures r == TierFloatMap(c, Field(payload, field), field, low, high)
  {
    var raw := Field(payload, field);
    if !raw.JObj? {
      return Failure(field);
    }
    var values: map<string, real> := map[];
    assert TRACKED_TIERS[0..] == TRACKED_TIERS;
    for i := 0 to |TRACKED_TIERS|
      invariant ParseTiers(c, raw.fields, field, low, high, TRACKED_TIERS[i..], values)
                == ParseTiers(c, raw.fields, field, low, high, TRACKED_TIERS, map[])
    {
      assert TRACKED_TIERS[i..][1..] == TRACKED_TIERS[i + 1..];
      var x :- ParseFloat(c, Field(raw.fields, TRACKED_TIERS[i]), field, low, high);
      values := values[TRACKED_TIERS[i] := x];
    }
    return Success(values);
  }

  lemma {:induction false} ParsedTiers(c: Conversions, raw: Object, field: string, low: Option<real>,
                                       high: Option<real>, tiers: seq<string>, values: map<string, real>)
    ensures var r := ParseTiers(c, raw, field, low, high, tiers, values);
            && (r.Success? <==> forall tier | tier in tiers ::
                  ParseFloat(c, Field(raw, tier), field, low, high).Success?)
            && (r.Success? ==>
                  && (forall tier | tier in tiers || tier in values :: tier in r.value)
                  && (forall tier | tier in tiers ::
                        Success(r.value[tier]) == ParseFloat(c, Field(raw, tier), field, low, high))
                  && (forall tier | tier in values && tier !in tiers :: r.value[tier] == values[tier])
                  && (forall tier | tier in r.value :: tier in tiers || tier in values))
    decreases tiers
  {
    if tiers != [] {
      var x := ParseFloat(c, Field(raw, tiers[0]), field, low, high);
      assert tiers == [tiers[0]] + tiers[1..];
      if x.Success? {
        ParsedTiers(c, raw, field, low, high, tiers[1..], values[tiers[0] := x.value]);
      }
    }
  }

  function TierJson(m: map<string, real>): Json {
    JObj(map tier | tier in m :: JReal(m[tier]))
  }

  lemma SameTiers(a: map<string, real>, b: map<string, real>)
    requires forall tier :: tier in a <==> tier in TRACKED_TIERS
    requires forall tier :: tier in b <==> tier in TRACKED_TIERS
    requires forall tier | tier in TRACKED_TIERS :: a[tier] == b[tier]
    ensures a == b
  {
  }

  /** A tier map that keeps to the bounds is parsed back unchanged. */
  lemma TierMapParsesBack(c: Conversions, m: map<string, real>, field: string, low: Option<real>, high: Option<real>)
    requires Lawful(c)
    requires forall tier :: tier in m <==> tier in TRACKED_TIERS
    requires forall tier | tier in m :: (low.Some? ==> low.value <= m[tier]) && (high.Some? ==> m[tier] <= high.value)
    ensures TierFloatMap(c, TierJson(m), field, low, high) == Success(m)
  {
    NumbersParseBack(c, TierJson(m).fields, m, field, low, high);
  }

  lemma NumbersParseBack(c: Conversions, raw: Object, m: map<string, real>, field: string, low: Option<real>,
                         high: Option<real>)
    requires Lawful(c)
    requires forall tier :: tier in m <==> tier in TRACKED_TIERS
    requires forall tier | tier in m :: Field(raw, tier) == JReal(m[tier])
    requires forall tier | tier in m :: (low.Some? ==> low.value <= m[tier]) && (high.Some? ==> m[tier] <= high.value)
    ensures ParseTiers(c, raw, field, low, high, TRACKED_TIERS, map[]) == Success(m)
  {
    ParsedTiers(c, raw, field, low, high, TRACKED_TIERS, map[]);
    SameTiers(m, ParseTiers(c, raw, field, low, high, TRACKED_TIERS, map[]).value);
  }

  // ------------------------------------------------------------- thresholds

  datatype Thresholds = Thresholds(
    minBlended: real, maxP95: real, maxDiscount: real, minGrowthToPro: real, minProToEnterprise: real,
    minStress: real, requiredCloses: int)

  /** `parse_thresholds` */
  function ParseThresholds(c: Conversions, j: Json): (r: Result<Thresholds>)
    ensures r.Success? ==> r.value.requiredCloses >= 1
  {
    if !j.JObj? then Failure("thresholds")
    else
      var t := j.fields;
      var minBlended :- ParseFloat(c, Field(t, "min_blended_gross_margin_percent"), "min_blended", Some(0.0),
                                   Some(100.0));
      var maxP95 :- ParseFloat(c, Field(t, "max_p95_tenant_llm_cogs_pct_mrr"), "max_p95", Some(0.0), None);
      var maxDiscount :- ParseFloat(c, Field(t, "max_annual_discount_impact_percent"), "max_discount", Some(0.0),
                                    Some(100.0));
      var growth :- ParseFloat(c, Field(t, "min_growth_to_pro_" + "conversion_mom_delta_percent"), "min_growth", None,
                               None);
      var enterprise :- ParseFloat(c, Field(t, "min_pro_to_enterprise_" + "conversion_mom_delta_percent"),
                                   "min_enterprise", None, None);
      var minStress :- ParseFloat(c, Field(t, "min_stress_margin_percent"), "min_stress", Some(0.0), Some(100.0));
      var closes :- ParseInt(c, GetOr(t, "required_consecutive_margin_closes", JInt(2)), "required_closes", Some(1));
      Success(Thresholds(minBlended, maxP95, maxDiscount, growth, enterprise, minStress, closes))
  }

  function ThresholdsJson(t: Thresholds): Json {
    JObj(map["min_blended_gross_margin_percent" := JReal(t.minBlended),
             "max_p95_tenant_llm_cogs_pct_mrr" := JReal(t.maxP95),
             "max_annual_discount_impact_percent" := JReal(t.maxDiscount),
             "min_growth_to_pro_" + "conversion_mom_delta_percent" := JReal(t.minGrowthToPro),
             "min_pro_to_enterprise_" + "conversion_mom_delta_percent" := JReal(t.minProToEnterprise),
             "min_stress_margin_percent" := JReal(t.minStress),
             "required_consecutive_margin_closes" := JInt(t.requiredCloses)])
  }

  predicate ThresholdsInRange(t: Thresholds) {
    && 0.0 <= t.minBlended <= 100.0 && 0.0 <= t.maxP95 && 0.0 <= t.maxDiscount <= 100.0
    && 0.0 <= t.minStress <= 100.0 && t.requiredCloses >= 1
  }

  lemma ThresholdFields(t: Thresholds)
    ensures var m := ThresholdsJson(t).fields;
            && Field(m, "min_blended_gross_margin_percent") == JReal(t.minBlended)
            && Field(m, "max_p95_tenant_llm_cogs_pct_mrr") == JReal(t.maxP95)
            && Field(m, "max_annual_discount_impact_percent") == JReal(t.maxDiscount)
            && Field(m, "min_growth_to_pro_" + "conversion_mom_delta_percent") == JReal(t.minGrowthToPro)
            && Field(m, "min_pro_to_enterprise_" + "conversion_mom_delta_percent") == JReal(t.minProToEnterprise)
            && Field(m, "min_stress_margin_percent") == JReal(t.minStress)
            && GetOr(m, "required_consecutive_margin_closes", JInt(2)) == JInt(t.requiredCloses)
  {
  }

  /** Thresholds are parsed back from what is written exactly when they are in range. */
  lemma ThresholdsParseBack(c: Conversions, t: Thresholds)
    requires Lawful(c)
    ensures ParseThresholds(c, ThresholdsJson(t)) == Success(t) <==> ThresholdsInRange(t)
  {
    ThresholdFields(t);
  }

  // ---------------------------------------------------------- close history

  datatype Close = Close(month: string, blended: real)

  function ParseClose(c: Conversions, item: Json): Result<Close> {
    if !item.JObj? then Failure("close_history")
    else
      var month :- ParseNonEmpty(c, Field(item.fields, "month"), "close_history.month");
      var blended :- ParseFloat(c, Field(item.fields, "blended_gross_margin_percent"),
                                "close_history.blended", Some(0.0), Some(100.0));
      Success(Close(month, blended))
  }

  function ParseCloses(c: Conversions, items: seq<Json>, seen: set<string>, parsed: seq<Close>): Result<seq<Close>>
    decreases items
  {
    if items == [] then Success(parsed)
    else
      var close :- ParseClose(c, items[0]);
      if close.month in seen then Failure("close_history.month")
      else ParseCloses(c, items[1..], seen + {close.month}, parsed + [close])
  }

  /** `parse_close_history` */
  function CloseHistory(c: Conversions, raw: Json): Result<seq<Close>> {
    if raw.JNull? then Success([])
    else if !raw.JList? then Failure("close_history")
    else ParseCloses(c, raw.items, {}, [])
  }

  method ParseCloseHistory(c: Conversions, payload: Object) returns (r: Result<seq<Close>>)
    ensures r == CloseHistory(c, Field(payload, "close_history"))
  {
    var raw := Field(payload, "close_history");
    if raw.JNull? {
      return Success([]);
    }
    if !raw.JList? {
      return Failure("close_history");
    }
    var parsed: seq<Close>, seen: set<string> := [], {};
    assert raw.items[0..] == raw.items;
    for i := 0 to |raw.items|
      invariant ParseCloses(c, raw.items[i..], seen, parsed) == ParseCloses(c, raw.items, {}, [])
    {
      assert raw.items[i..][1..] == raw.items[i + 1..];
      var close :- ParseClose(c, raw.items[i]);
      if close.month in seen {
        return Failure("close_history.month");
      }
      seen := seen + {close.month};
      parsed := parsed + [close];
    }
    return Success(parsed);
  }

  ghost predicate DistinctMonths(closes: seq<Close>) {
    forall i, j | 0 <= i < j < |closes| :: closes[i].month != closes[j].month
  }

  /** A parsed history has one entry for every item, in order, with distinct months and margins
      from 0 to 100. */
  lemma ParsedHistory(c: Conversions, items: seq<Json>)
    requires ParseCloses(c, items, {}, []).Success?
    ensures var closes := ParseCloses(c, items, {}, []).value;
            && |closes| == |items| && DistinctMonths(closes)
            && forall i | 0 <= i < |closes| ::
                 ParseClose(c, items[i]) == Success(closes[i]) && closes[i].month != ""
                 && 0.0 <= closes[i].blended <= 100.0
  {
    assert items[0..] == items && items[..0] == [];
    ParsedHistoryFrom(c, items, 0, {}, []);
  }

  lemma {:induction false} ParsedHistoryFrom(c: Conversions, items: seq<Json>, n: nat, seen: set<string>,
                                             parsed: seq<Close>)
    requires n == |parsed| <= |items| && DistinctMonths(parsed)
    requires forall i | 0 <= i < n :: parsed[i].month in seen && ParseClose(c, items[i]) == Success(parsed[i])
    requires ParseCloses(c, items[n..], seen, parsed).Success?
    ensures var closes := ParseCloses(c, items[n..], seen, parsed).value;
            && |closes| == |items| && DistinctMonths(closes)
            && forall i | 0 <= i < |closes| :: ParseClose(c, items[i]) == Success(closes[i])
    decreases |items| - n
  {
    if n < |items| {
      assert items[n..][1..] == items[n + 1..];
      var close := ParseClose(c, items[n]).value;
      ParsedHistoryFrom(c, items, n + 1, seen + {close.month}, parsed + [close]);
    }
  }
}
