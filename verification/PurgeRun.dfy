/** The purge carried out on a database, commit by commit (`purge_simulation_data.py`). */
module PurgeRun {
  import opened Purge
  import opened PurgeRows
  import opened Text

  const BATCH_SIZE := 50000

  function IdsOf(rows: seq<Row>, column: string, values: seq<Value>): seq<Value> {
    if rows == [] then []
    else
      var rest := IdsOf(rows[1..], column, values);
      if In(rows[0], column, values) then [Cell(rows[0], "id")] + rest else rest
  }

  /** The session: the tables, and the states that were committed. */
  class Database {
    var tables: Db
    ghost var commits: seq<Db>

    constructor (tables: Db)
      ensures this.tables == tables && commits == []
    {
      this.tables := tables;
      commits := [];
    }

    /** `DELETE FROM table WHERE predicates`, then commit. */
    method DeleteWhere(table: Table, who: Who) returns (count: nat)
      requires table.name in tables
      modifies this
      ensures tables == old(tables)[table.name := Survivors(table, who, old(tables[table.name]))]
      ensures count == |old(tables[table.name])| - |tables[table.name]|
      ensures commits == old(commits) + [tables]
    {
      var rows := tables[table.name];
      SurvivorMembers(table, who, rows);
      var kept := Survivors(table, who, rows);
      count := |rows| - |kept|;
      tables := tables[table.name := kept];
      commits := commits + [tables];
    }

    /** `SELECT id FROM table WHERE predicates LIMIT limit`, in whatever order. */
    method SelectIds(table: Table, who: Who, limit: nat) returns (ids: seq<Value>)
      requires table.name in tables
      ensures |ids| <= limit
      ensures forall k | 0 <= k < |ids| :: ids[k] in DoomedIds(table, who, tables[table.name])
      ensures ids == [] ==> limit == 0 || DoomedIds(table, who, tables[table.name]) == {}
    {
      ids := [];
      var rows := tables[table.name];
      for i := 0 to |rows|
        invariant |ids| <= limit
        invariant forall k | 0 <= k < |ids| :: ids[k] in DoomedIds(table, who, rows)
        invariant ids == [] ==> limit == 0 || forall k | 0 <= k < i :: !Doomed(table, who, rows[k])
      {
        if |ids| < limit && Doomed(table, who, rows[i]) {
          ids := ids + [Cell(rows[i], "id")];
        }
      }
    }

    /** `DELETE FROM table WHERE id IN (ids)`, then commit. */
    method DeleteIds(table: Table, ids: seq<Value>) returns (count: nat)
      requires table.name in tables
      modifies this
      ensures tables == old(tables)[table.name := Without(old(tables[table.name]), set k | 0 <= k < |ids| :: ids[k])]
      ensures count == |old(tables[table.name])| - |tables[table.name]|
      ensures commits == old(commits) + [tables]
    {
      var rows := tables[table.name];
      var gone := set k | 0 <= k < |ids| :: ids[k];
      WithoutMembers(rows, gone);
      var kept := Without(rows, gone);
      count := |rows| - |kept|;
      tables := tables[table.name := kept];
      commits := commits + [tables];
    }
  }

  /** The rows that are left of a table. */
  function Cleaned(table: Table, who: Who, rows: seq<Row>): seq<Row> {
    if table.name == "cost_records" && table.HasColumn("id") then Without(rows, DoomedIds(table, who, rows))
    else Survivors(table, who, rows)
  }

  /** A state in which only this table has changed, by losing the rows of some doomed ids. */
  ghost predicate Partly(table: Table, who: Who, before: Db, now: Db)
    requires table.name in before
  {
    exists gone :: PartlyBy(table, who, before, now, gone)
  }

  ghost predicate PartlyBy(table: Table, who: Who, before: Db, now: Db, gone: set<Value>)
    requires table.name in before
  {
    && gone <= DoomedIds(table, who, before[table.name])
    && now == before[table.name := Without(before[table.name], gone)]
  }

  /** When no doomed row is left, all doomed ids are gone. */
  lemma AllGone(table: Table, who: Who, rows: seq<Row>, gone: set<Value>)
    requires IdsPresent(rows) && gone <= DoomedIds(table, who, rows)
    requires DoomedIds(table, who, Without(rows, gone)) == {}
    ensures gone == DoomedIds(table, who, rows)
  {
    var left := Without(rows, gone);
    WithoutMembers(rows, gone);
    NoneLeft(table, who, left);
    forall id | id in DoomedIds(table, who, rows) ensures id in gone {
      var i :| 0 <= i < |rows| && Doomed(table, who, rows[i]) && Cell(rows[i], "id") == id;
      assert rows[i] !in left;
    }
  }

  lemma NoneLeft(table: Table, who: Who, rows: seq<Row>)
    requires DoomedIds(table, who, rows) == {}
    ensures NoneDoomed(table, who, rows)
  {
    forall row | row in rows ensures !Doomed(table, who, row) {
      var k :| 0 <= k < |rows| && rows[k] == row;
      assert Cell(rows[k], "id") !in DoomedIds(table, who, rows);
    }
  }

  lemma StillDoomed(table: Table, who: Who, rows: seq<Row>, gone: set<Value>)
    ensures DoomedIds(table, who, Without(rows, gone)) <= DoomedIds(table, who, rows)
    ensures IdsPresent(rows) ==> IdsPresent(Without(rows, gone))
  {
    var left := Without(rows, gone);
    WithoutMembers(rows, gone);
    forall id | id in DoomedIds(table, who, left) ensures id in DoomedIds(table, who, rows) {
      var k :| 0 <= k < |left| && Doomed(table, who, left[k]) && Cell(left[k], "id") == id;
      assert left[k] in rows;
      var i :| 0 <= i < |rows| && rows[i] == left[k];
    }
    forall k | 0 <= k < |left| && IdsPresent(rows) ensures Cell(left[k], "id") != Null {
      assert left[k] in rows;
    }
  }

  lemma SomeGone(table: Table, who: Who, rows: seq<Row>, ids: set<Value>, id: Value)
    requires IdsPresent(rows) && id in ids && id in DoomedIds(table, who, rows)
    ensures |Without(rows, ids)| < |rows|
  {
    var i :| 0 <= i < |rows| && Doomed(table, who, rows[i]) && Cell(rows[i], "id") == id;
    WithoutShrinks(rows, ids, i);
  }

  /** Deleting one more batch of doomed ids. */
  lemma BatchGone(table: Table, who: Who, before: Db, gone: set<Value>, ids: set<Value>)
    requires table.name in before && gone <= DoomedIds(table, who, before[table.name])
             && ids <= DoomedIds(table, who, before[table.name])
    ensures var now := before[table.name := Without(before[table.name], gone)];
            PartlyBy(table, who, before, now[table.name := Without(now[table.name], ids)], gone + ids)
  {
    WithoutTwice(before[table.name], gone, ids);
  }

  /** `_delete_batched`: it ends for any batch size and counts what it deletes. With a positive batch
      size it deletes the rows with the ids of matching rows and no others; every commit on the way
      has lost only rows with such ids. */
  method DeleteBatched(db: Database, table: Table, who: Who, batchSize: nat) returns (total: nat)
    requires table.name in db.tables
    requires table.HasColumn("id") ==> IdsPresent(db.tables[table.name])
    modifies db
    ensures var rows := old(db.tables[table.name]);
            db.tables == old(db.tables)[table.name :=
              if !table.HasColumn("id") then Survivors(table, who, rows)
              else if batchSize == 0 then rows
              else Without(rows, DoomedIds(table, who, rows))]
    ensures total == |old(db.tables[table.name])| - |db.tables[table.name]|
    ensures old(db.commits) <= db.commits
    ensures table.HasColumn("id") ==>
              forall k | |old(db.commits)| <= k < |db.commits| :: Partly(table, who, old(db.tables), db.commits[k])
    ensures !table.HasColumn("id") ==> db.commits == old(db.commits) + [db.tables]
  {
    if !table.HasColumn("id") {
      total := db.DeleteWhere(table, who);
      return;
    }
    ghost var before, rows := db.tables, db.tables[table.name];
    ghost var gone: set<Value> := {};
    WithoutNothing(rows);
    total := 0;
    while true
      invariant table.name in db.tables && PartlyBy(table, who, before, db.tables, gone)
      invariant batchSize == 0 ==> gone == {}
      invariant total == |rows| - |db.tables[table.name]|
      invariant old(db.commits) <= db.commits
      invariant forall k | |old(db.commits)| <= k < |db.commits| :: Partly(table, who, before, db.commits[k])
      decreases |db.tables[table.name]|
    {
      StillDoomed(table, who, rows, gone);
      var batchIds := db.SelectIds(table, who, batchSize);
      if batchIds == [] {
        break;
      }
      ghost var ids := set k | 0 <= k < |batchIds| :: batchIds[k];
      SomeGone(table, who, db.tables[table.name], ids, batchIds[0]);
      BatchGone(table, who, before, gone, ids);
      var count := db.DeleteIds(table, batchIds);
      gone := gone + ids;
      total := total + count;
      assert PartlyBy(table, who, before, db.tables, gone);
    }
    if batchSize > 0 {
      AllGone(table, who, rows, gone);
    }
  }

  // ------------------------------------------------------------ stages of the purge

  /** No row of the table is doomed: it has no target, or no predicate can be built for it. */
  predicate Idle(table: Table, who: Who) {
    var target := TargetOf(table);
    target.None? || !HasPredicates(table, target.value, who)
  }

  lemma IdleNotDoomed(table: Table, who: Who, row: Row)
    requires Idle(table, who)
    ensures !Doomed(table, who, row)
  {
  }

  lemma {:induction false} NoneDoomedSurvive(table: Table, who: Who, rows: seq<Row>)
    requires forall i | 0 <= i < |rows| :: !Doomed(table, who, rows[i])
    ensures Survivors(table, who, rows) == rows
  {
    if rows != [] {
      NoneDoomedSurvive(table, who, rows[1..]);
    }
  }

  lemma IdleStays(table: Table, who: Who, rows: seq<Row>)
    requires Idle(table, who)
    ensures Cleaned(table, who, rows) == rows
  {
    forall i | 0 <= i < |rows| ensures !Doomed(table, who, rows[i]) {
      IdleNotDoomed(table, who, rows[i]);
    }
    NoneDoomedSurvive(table, who, rows);
    assert DoomedIds(table, who, rows) == {};
    WithoutNothing(rows);
  }

  /** The tables from position `bound` on have been purged, and nothing else has changed. */
  ghost predicate AtStage(schema: Schema, who: Who, before: Db, now: Db, bound: nat) {
    && Covers(schema, before) && now.Keys == before.Keys
    && (forall i | 0 <= i < |schema| :: TableAt(schema[i], who, before, now, i >= bound))
    && (forall name | name in before && name !in Names(schema) :: now[name] == before[name])
  }

  predicate TableAt(table: Table, who: Who, before: Db, now: Db, done: bool)
    requires table.name in before && table.name in now
  {
    now[table.name] == if done then Cleaned(table, who, before[table.name]) else before[table.name]
  }

  lemma StageMoves(schema: Schema, who: Who, before: Db, now: Db, bound: nat, lower: nat)
    requires AtStage(schema, who, before, now, bound) && lower <= bound <= |schema|
    requires forall i | lower <= i < bound :: Idle(schema[i], who)
    ensures AtStage(schema, who, before, now, lower)
  {
    forall i | 0 <= i < |schema| ensures TableAt(schema[i], who, before, now, i >= lower) {
      assert TableAt(schema[i], who, before, now, i >= bound);
      if lower <= i < bound {
        IdleStays(schema[i], who, before[schema[i].name]);
      }
    }
  }

  lemma OtherTable(table: Table, who: Who, before: Db, now: Db, name: string, rows: seq<Row>, done: bool)
    requires table.name in before && table.name in now && table.name != name && TableAt(table, who, before, now, done)
    ensures TableAt(table, who, before, now[name := rows], done)
  {
  }

  lemma ThisTable(table: Table, who: Who, before: Db, now: Db, rows: seq<Row>)
    requires table.name in before && rows == Cleaned(table, who, before[table.name])
    ensures TableAt(table, who, before, now[table.name := rows], true)
  {
  }

  lemma StageNext(schema: Schema, who: Who, before: Db, now: Db, i: nat, rows: seq<Row>)
    requires DistinctNames(schema) && i < |schema| && AtStage(schema, who, before, now, i + 1)
    requires rows == Cleaned(schema[i], who, before[schema[i].name])
    ensures AtStage(schema, who, before, now[schema[i].name := rows], i)
  {
    var next := now[schema[i].name := rows];
    assert Names(schema)[i] == schema[i].name;
    forall k | 0 <= k < |schema| ensures TableAt(schema[k], who, before, next, k >= i) {
      if k == i {
        ThisTable(schema[i], who, before, now, rows);
      } else {
        assert TableAt(schema[k], who, before, now, k >= i + 1);
        OtherTable(schema[k], who, before, now, schema[i].name, rows, k >= i);
      }
    }
  }

  // ----------------------------------------------------- every commit is sound

  /** The rows a purged table has left are not doomed, and it lost none but by a doomed id. */
  lemma CleanedFacts(table: Table, who: Who, rows: seq<Row>)
    requires table.name == "cost_records" ==> IdsPresent(rows)
    ensures NoneDoomed(table, who, Cleaned(table, who, rows))
    ensures OnlyDoomedGone(table, who, rows, Cleaned(table, who, rows))
  {
    SurvivorMembers(table, who, rows);
    var ids := DoomedIds(table, who, rows);
    WithoutMembers(rows, ids);
    forall row | row in Without(rows, ids) && IdsPresent(rows) ensures !Doomed(table, who, row) {
      assert row in rows;
      var i :| 0 <= i < |rows| && rows[i] == row;
      assert Cell(rows[i], "id") !in ids;
    }
    WithoutOnlyDoomed(table, who, rows, ids);
  }

  lemma WithoutOnlyDoomed(table: Table, who: Who, rows: seq<Row>, ids: set<Value>)
    requires ids <= DoomedIds(table, who, rows)
    ensures OnlyDoomedGone(table, who, rows, Without(rows, ids))
  {
    WithoutMembers(rows, ids);
    forall row | row in rows && row !in Without(rows, ids)
      ensures exists d :: d in rows && Doomed(table, who, d) && Cell(d, "id") == Cell(row, "id")
    {
      var i :| 0 <= i < |rows| && Doomed(table, who, rows[i]) && Cell(rows[i], "id") == Cell(row, "id");
      assert rows[i] in rows;
    }
  }

  /** Referenced tables come first, and the table that is purged in batches does not refer to
      itself. */
  ghost predicate SoundSchema(schema: Schema) {
    && ParentsFirst(schema)
    && forall i | 0 <= i < |schema| && schema[i].name == "cost_records" :: !References(schema[i], schema[i])
  }

  predicate BatchIdsPresent(db: Db) {
    "cost_records" in db ==> IdsPresent(db["cost_records"])
  }

  lemma StagePruned(schema: Schema, who: Who, before: Db, now: Db, bound: nat)
    requires ParentsFirst(schema) && BatchIdsPresent(before) && AtStage(schema, who, before, now, bound)
    ensures Pruned(schema, who, before, now)
  {
    forall i | 0 <= i < |schema|
      ensures OnlyDoomedGone(schema[i], who, before[schema[i].name], now[schema[i].name])
      ensures i >= bound ==> NoneDoomed(schema[i], who, now[schema[i].name])
    {
      assert TableAt(schema[i], who, before, now, i >= bound);
      CleanedFacts(schema[i], who, before[schema[i].name]);
    }
    forall i, j | 0 <= i < |schema| && 0 <= j < |schema| && References(schema[i], schema[j])
        && now[schema[j].name] != before[schema[j].name]
      ensures NoneDoomed(schema[i], who, now[schema[i].name])
    {
      assert TableAt(schema[j], who, before, now, j >= bound);
    }
  }

  /** The states committed while a table is purged in batches. */
  lemma PartlyPruned(schema: Schema, who: Who, before: Db, stage: Db, now: Db, b: nat)
    requires SoundSchema(schema) && DistinctNames(schema) && BatchIdsPresent(before) && b < |schema|
    requires AtStage(schema, who, before, stage, b + 1) && schema[b].name == "cost_records"
    requires Partly(schema[b], who, stage, now)
    ensures Pruned(schema, who, before, now)
  {
    StagePruned(schema, who, before, stage, b + 1);
    assert TableAt(schema[b], who, before, stage, false);
    var gone :| PartlyBy(schema[b], who, stage, now, gone);
    WithoutOnlyDoomed(schema[b], who, before[schema[b].name], gone);
    forall i | 0 <= i < |schema| ensures OnlyDoomedGone(schema[i], who, before[schema[i].name], now[schema[i].name]) {
      if i != b {
        assert now[schema[i].name] == stage[schema[i].name];
      }
    }
    forall i, j | 0 <= i < |schema| && 0 <= j < |schema| && References(schema[i], schema[j])
        && now[schema[j].name] != before[schema[j].name]
      ensures NoneDoomed(schema[i], who, now[schema[i].name])
    {
      LaterClean(schema, who, before, stage, b, i, j);
    }
  }

  lemma UnchangedBelow(schema: Schema, who: Who, before: Db, now: Db, bound: nat, j: nat)
    requires AtStage(schema, who, before, now, bound) && j < |schema| && j < bound
    ensures now[schema[j].name] == before[schema[j].name]
  {
    assert TableAt(schema[j], who, before, now, false);
  }

  lemma DoneIsClean(schema: Schema, who: Who, before: Db, now: Db, bound: nat, i: nat)
    requires BatchIdsPresent(before) && AtStage(schema, who, before, now, bound) && bound <= i < |schema|
    ensures NoneDoomed(schema[i], who, now[schema[i].name])
  {
    assert TableAt(schema[i], who, before, now, true);
    CleanedFacts(schema[i], who, before[schema[i].name]);
  }

  lemma LaterClean(schema: Schema, who: Who, before: Db, stage: Db, b: nat, i: nat, j: nat)
    requires SoundSchema(schema) && DistinctNames(schema) && BatchIdsPresent(before) && b < |schema|
    requires AtStage(schema, who, before, stage, b + 1) && schema[b].name == "cost_records"
    requires i < |schema| && j < |schema| && References(schema[i], schema[j])
    requires j == b || stage[schema[j].name] != before[schema[j].name]
    ensures i > b && NoneDoomed(schema[i], who, stage[schema[i].name])
  {
    if j < b + 1 {
      UnchangedBelow(schema, who, before, stage, b + 1, j);
    }
    DoneIsClean(schema, who, before, stage, b + 1, i);
  }

  // ---------------------------------------------------------------- the purge

  datatype Report = Report(tenants: nat, users: nat, targets: seq<Target>, deleted: map<string, nat>)

  function Position(schema: Schema, name: string): (n: nat)
    ensures n <= |schema| && (n < |schema| ==> schema[n].name == name)
    ensures forall i | 0 <= i < n :: schema[i].name != name
  {
    if schema == [] || schema[0].name == name then 0
    else
      var n := Position(schema[1..], name);
      assert forall i | 0 < i < |schema| :: schema[i] == schema[1..][i - 1];
      n + 1
  }

  /** The targets the report lists: those some predicate can be built for. */
  function Preview(schema: Schema, targets: seq<Target>, who: Who): seq<Target> {
    if targets == [] then []
    else
      var rest := Preview(schema, targets[1..], who);
      var i := Position(schema, targets[0].table);
      if i < |schema| && HasPredicates(schema[i], targets[0], who) then [targets[0]] + rest else rest
  }

  function TenantIds(db: Db, ids: seq<nat>): seq<Value>
    requires "tenants" in db
  {
    IdsOf(db["tenants"], "id", seq(|ids|, i requires 0 <= i < |ids| => Id(ids[i])))
  }

  /** Whose data goes: the tenants asked for that exist, and the users of those tenants. */
  function Whose(db: Db, ids: seq<nat>): Who
    requires "tenants" in db && "users" in db
  {
    var tenants := TenantIds(db, ids);
    Who(tenants, IdsOf(db["users"], "tenant_id", tenants))
  }

  predicate AllExist(db: Db, ids: seq<nat>)
    requires "tenants" in db
  {
    forall i | 0 <= i < |ids| :: Id(ids[i]) in TenantIds(db, ids)
  }

  function BoundOf(positions: seq<nat>, n: nat, k: nat): nat
    requires k <= |positions|
  {
    if k == 0 then n else positions[k - 1]
  }

  function AfterOf(positions: seq<nat>, k: nat): nat
    requires k <= |positions|
  {
    if k == |positions| then 0 else positions[k] + 1
  }

  /** No table between two targets that follow each other has a target. */
  lemma {:induction false} GapsIdle(found: seq<Option<Target>>, n: nat, k: nat)
    requires n <= |found| && k <= |Positions(found, n)|
    ensures var p := Positions(found, n);
            AfterOf(p, k) <= BoundOf(p, n, k) <= n
            && forall x | AfterOf(p, k) <= x < BoundOf(p, n, k) :: found[x].None?
  {
    if n > 0 {
      if found[n - 1].None? {
        GapsIdle(found, n - 1, k);
      } else if k > 0 {
        GapsIdle(found, n - 1, k - 1);
      }
    }
  }

  lemma PositionFound(schema: Schema, i: nat)
    requires DistinctNames(schema) && i < |schema|
    ensures Position(schema, schema[i].name) == i
  {
  }

  /** How many rows a table loses. */
  function Loss(table: Table, who: Who, rows: seq<Row>): nat {
    SurvivorMembers(table, who, rows);
    WithoutMembers(rows, DoomedIds(table, who, rows));
    |rows| - |Cleaned(table, who, rows)|
  }

  /** The counts an execution reports for the targets it lists. */
  function Losses(schema: Schema, who: Who, before: Db, targets: seq<Target>): map<string, nat> {
    if targets == [] then map[]
    else
      var front, target := Losses(schema, who, before, targets[..|targets| - 1]), targets[|targets| - 1];
      var i := Position(schema, target.table);
      if i < |schema| && target.table in before && HasPredicates(schema[i], target, who) then
        front[target.table := Loss(schema[i], who, before[target.table])]
      else front
  }

  lemma LossesStep(schema: Schema, who: Who, before: Db, targets: seq<Target>, k: nat, p: nat)
    requires DistinctNames(schema) && k < |targets| && p < |schema| && schema[p].name == targets[k].table
             && targets[k].table in before
    ensures var front := Losses(schema, who, before, targets[..k]);
            Losses(schema, who, before, targets[..k + 1]) ==
            if HasPredicates(schema[p], targets[k], who) then
              front[targets[k].table := Loss(schema[p], who, before[targets[k].table])]
            else front
  {
    PositionFound(schema, p);
    assert targets[..k + 1][..k] == targets[..k];
  }

  /** The reported count of a table is what it lost. */
  lemma {:induction false} LossesExact(schema: Schema, who: Who, before: Db, now: Db, targets: seq<Target>,
                                       name: string)
    requires AtStage(schema, who, before, now, 0) && name in Losses(schema, who, before, targets)
    ensures name in before && Losses(schema, who, before, targets)[name] == |before[name]| - |now[name]|
  {
    var target := targets[|targets| - 1];
    var i := Position(schema, target.table);
    if name == target.table && i < |schema| && target.table in before && HasPredicates(schema[i], target, who) {
      assert TableAt(schema[i], who, before, now, true);
    } else {
      LossesExact(schema, who, before, now, targets[..|targets| - 1], name);
    }
  }

  /** One table of an execution. */
  method PurgeTable(db: Database, schema: Schema, who: Who, i: nat, target: Target, ghost before: Db)
    returns (count: nat)
    requires DistinctNames(schema) && SoundSchema(schema) && BatchIdsPresent(before)
    requires i < |schema| && AtStage(schema, who, before, db.tables, i + 1)
    requires target.batched == (schema[i].name == "cost_records")
    modifies db
    ensures AtStage(schema, who, before, db.tables, i)
    ensures count == Loss(schema[i], who, before[schema[i].name])
    ensures old(db.commits) <= db.commits
    ensures forall m | |old(db.commits)| <= m < |db.commits| :: Pruned(schema, who, before, db.commits[m])
  {
    ghost var stage := db.tables;
    assert TableAt(schema[i], who, before, stage, false);
    ghost var rows := Cleaned(schema[i], who, before[schema[i].name]);
    StageNext(schema, who, before, stage, i, rows);
    StagePruned(schema, who, before, stage[schema[i].name := rows], i);
    if target.batched {
      count := DeleteBatched(db, schema[i], who, BATCH_SIZE);
      forall m | |old(db.commits)| <= m < |db.commits| && schema[i].HasColumn("id")
        ensures Pruned(schema, who, before, db.commits[m])
      {
        PartlyPruned(schema, who, before, stage, db.commits[m], i);
      }
    } else {
      count := db.DeleteWhere(schema[i], who);
    }
  }

  /** The targets are those of the tables at these positions, and between them no table has one. */
  ghost predicate Places(schema: Schema, targets: seq<Target>, positions: seq<nat>) {
    && |targets| == |positions|
    && (forall k | 0 <= k < |positions| ::
          positions[k] < |schema| && TargetOf(schema[positions[k]]) == Some(targets[k])
          && schema[positions[k]].name == targets[k].table)
    && (forall k | 0 <= k <= |positions| :: GapIdle(schema, positions, k))
  }

  ghost predicate GapIdle(schema: Schema, positions: seq<nat>, k: nat)
    requires k <= |positions|
  {
    && AfterOf(positions, k) <= BoundOf(positions, |schema|, k) <= |schema|
    && forall x | AfterOf(positions, k) <= x < BoundOf(positions, |schema|, k) :: TargetOf(schema[x]).None?
  }

  lemma TargetsPlaced(schema: Schema)
    requires DistinctNames(schema)
    ensures var targets, p := Targets(schema), Positions(Found(schema), |schema|);
            |targets| == |p| && forall k | 0 <= k < |p| :: p[k] < |schema| && TargetOf(schema[p[k]]) == Some(targets[k])
  {
    TargetsInOrder(Names(schema), Found(schema), |schema|, {});
    var targets, p := Targets(schema), Positions(Found(schema), |schema|);
    forall k | 0 <= k < |p| ensures TargetOf(schema[p[k]]) == Some(targets[k]) {
      assert Found(schema)[p[k]] == Some(targets[k]);
    }
  }

  lemma GapPlaced(schema: Schema, k: nat)
    requires k <= |Positions(Found(schema), |schema|)|
    ensures GapIdle(schema, Positions(Found(schema), |schema|), k)
  {
    var p := Positions(Found(schema), |schema|);
    GapsIdle(Found(schema), |schema|, k);
    forall x | AfterOf(p, k) <= x < BoundOf(p, |schema|, k) ensures TargetOf(schema[x]).None? {
      assert Found(schema)[x].None?;
    }
  }

  lemma TargetPlaces(schema: Schema)
    requires DistinctNames(schema)
    ensures Places(schema, Targets(schema), Positions(Found(schema), |schema|))
  {
    TargetsPlaced(schema);
    forall k | 0 <= k <= |Positions(Found(schema), |schema|)|
      ensures GapIdle(schema, Positions(Found(schema), |schema|), k)
    {
      GapPlaced(schema, k);
    }
  }

  lemma StageIdle(schema: Schema, who: Who, before: Db, now: Db, positions: seq<nat>, k: nat)
    requires k <= |positions| && GapIdle(schema, positions, k)
    requires AtStage(schema, who, before, now, BoundOf(positions, |schema|, k))
    ensures AtStage(schema, who, before, now, AfterOf(positions, k))
  {
    StageMoves(schema, who, before, now, BoundOf(positions, |schema|, k), AfterOf(positions, k));
  }

  lemma PreviewStep(schema: Schema, targets: seq<Target>, who: Who, k: nat, p: nat)
    requires DistinctNames(schema) && k < |targets| && p < |schema| && schema[p].name == targets[k].table
    ensures Preview(schema, targets[k..], who) ==
            var rest := Preview(schema, targets[k + 1..], who);
            if HasPredicates(schema[p], targets[k], who) then [targets[k]] + rest else rest
  {
    PositionFound(schema, p);
    assert targets[k..][1..] == targets[k + 1..];
  }

  /** The body of the loop over the targets. */
  method PurgeTarget(db: Database, schema: Schema, dryRun: bool, who: Who, target: Target, ghost p: nat,
                     ghost before: Db)
    returns (listed: bool, count: nat)
    requires DistinctNames(schema) && SoundSchema(schema) && BatchIdsPresent(before)
    requires p < |schema| && TargetOf(schema[p]) == Some(target)
    requires !dryRun ==> AtStage(schema, who, before, db.tables, p + 1)
    modifies db
    ensures listed == HasPredicates(schema[p], target, who)
    ensures dryRun ==> db.tables == old(db.tables) && db.commits == old(db.commits)
    ensures !dryRun ==> AtStage(schema, who, before, db.tables, p)
    ensures !dryRun && listed ==> count == Loss(schema[p], who, before[schema[p].name])
    ensures old(db.commits) <= db.commits
    ensures forall m | |old(db.commits)| <= m < |db.commits| :: Pruned(schema, who, before, db.commits[m])
  {
    PositionFound(schema, p);
    var i := Position(schema, target.table);
    listed := HasPredicates(schema[i], target, who);
    count := 0;
    if !dryRun {
      if listed {
        count := PurgeTable(db, schema, who, i, target, before);
      } else {
        StageMoves(schema, who, before, db.tables, p + 1, p);
      }
    }
  }

  ghost predicate PreviewSoFar(schema: Schema, who: Who, targets: seq<Target>, k: nat, preview: seq<Target>)
    requires DistinctNames(schema) && k <= |targets|
  {
    preview + Preview(schema, targets[k..], who) == Preview(schema, targets, who)
  }

  /** The counts when `k` targets have been done. */
  ghost predicate LossesSoFar(schema: Schema, dryRun: bool, who: Who, targets: seq<Target>, before: Db, k: nat,
                              deleted: map<string, nat>)
    requires DistinctNames(schema) && k <= |targets|
  {
    deleted == if dryRun then map[] else Losses(schema, who, before, targets[..k])
  }

  /** The tables before target `k` is done. */
  ghost predicate DoneSoFar(schema: Schema, dryRun: bool, who: Who, positions: seq<nat>, before: Db, k: nat,
                            now: Db)
    requires k <= |positions|
  {
    if dryRun then now == before else AtStage(schema, who, before, now, BoundOf(positions, |schema|, k))
  }

  lemma PreviewNext(schema: Schema, who: Who, targets: seq<Target>, k: nat, preview: seq<Target>, p: nat)
    requires DistinctNames(schema) && k < |targets| && p < |schema| && schema[p].name == targets[k].table
    requires PreviewSoFar(schema, who, targets, k, preview)
    ensures PreviewSoFar(schema, who, targets, k + 1,
                         if HasPredicates(schema[p], targets[k], who) then preview + [targets[k]] else preview)
  {
    PreviewStep(schema, targets, who, k, p);
    var rest := Preview(schema, targets[k + 1..], who);
    assert preview + ([targets[k]] + rest) == preview + [targets[k]] + rest;
  }

  lemma LossesNext(schema: Schema, dryRun: bool, who: Who, targets: seq<Target>, before: Db, k: nat,
                   deleted: map<string, nat>, p: nat, count: nat)
    requires DistinctNames(schema) && k < |targets| && p < |schema| && schema[p].name == targets[k].table
    requires targets[k].table in before && LossesSoFar(schema, dryRun, who, targets, before, k, deleted)
    requires !dryRun && HasPredicates(schema[p], targets[k], who) ==>
               count == Loss(schema[p], who, before[schema[p].name])
    ensures LossesSoFar(schema, dryRun, who, targets, before, k + 1,
                        if HasPredicates(schema[p], targets[k], who) && !dryRun
                        then deleted[targets[k].table := count] else deleted)
  {
    LossesStep(schema, who, before, targets, k, p);
  }

  lemma PlacedAt(schema: Schema, targets: seq<Target>, positions: seq<nat>, k: nat)
    requires Places(schema, targets, positions) && k <= |positions|
    ensures GapIdle(schema, positions, k)
    ensures k < |positions| ==>
              && positions[k] < |schema| && TargetOf(schema[positions[k]]) == Some(targets[k])
              && schema[positions[k]].name == targets[k].table && AfterOf(positions, k) == positions[k] + 1
              && BoundOf(positions, |schema|, k + 1) == positions[k]
  {
  }

  /** Every state committed from `n` on is pruned. */
  ghost predicate CommitsPruned(schema: Schema, who: Who, before: Db, n: nat, commits: seq<Db>)
    requires Covers(schema, before)
  {
    forall m | n <= m < |commits| :: Pruned(schema, who, before, commits[m])
  }

  /** One round of the loop over the targets. */
  method PurgeNext(db: Database, schema: Schema, dryRun: bool, who: Who, targets: seq<Target>,
                   ghost positions: seq<nat>, k: nat, preview: seq<Target>, deleted: map<string, nat>,
                   ghost before: Db)
    returns (preview': seq<Target>, deleted': map<string, nat>)
    requires DistinctNames(schema) && SoundSchema(schema) && Covers(schema, before) && BatchIdsPresent(before)
    requires Places(schema, targets, positions) && k < |targets|
    requires PreviewSoFar(schema, who, targets, k, preview)
    requires LossesSoFar(schema, dryRun, who, targets, before, k, deleted)
    requires DoneSoFar(schema, dryRun, who, positions, before, k, db.tables)
    modifies db
    ensures PreviewSoFar(schema, who, targets, k + 1, preview')
    ensures LossesSoFar(schema, dryRun, who, targets, before, k + 1, deleted')
    ensures DoneSoFar(schema, dryRun, who, positions, before, k + 1, db.tables)
    ensures dryRun ==> db.commits == old(db.commits)
    ensures old(db.commits) <= db.commits
    ensures CommitsPruned(schema, who, before, |old(db.commits)|, db.commits)
  {
    PlacedAt(schema, targets, positions, k);
    if !dryRun {
      StageIdle(schema, who, before, db.tables, positions, k);
    }
    var listed, count := PurgeTarget(db, schema, dryRun, who, targets[k], positions[k], before);
    PreviewNext(schema, who, targets, k, preview, positions[k]);
    LossesNext(schema, dryRun, who, targets, before, k, deleted, positions[k], count);
    preview', deleted' := preview, deleted;
    if listed {
      preview' := preview + [targets[k]];
      if !dryRun {
        deleted' := deleted[targets[k].table := count];
      }
    }
  }

  lemma CommitsJoined(schema: Schema, who: Who, before: Db, n: nat, a: seq<Db>, b: seq<Db>)
    requires Covers(schema, before) && n <= |a| && a <= b
    requires CommitsPruned(schema, who, before, n, a) && CommitsPruned(schema, who, before, |a|, b)
    ensures CommitsPruned(schema, who, before, n, b)
  {
    forall m | n <= m < |b| ensures Pruned(schema, who, before, b[m]) {
      if m < |a| {
        assert b[m] == a[m];
      }
    }
  }

  lemma LoopStarts(schema: Schema, dryRun: bool, who: Who, targets: seq<Target>, positions: seq<nat>, before: Db)
    requires DistinctNames(schema) && Covers(schema, before) && Places(schema, targets, positions)
    ensures PreviewSoFar(schema, who, targets, 0, [])
    ensures LossesSoFar(schema, dryRun, who, targets, before, 0, map[])
    ensures DoneSoFar(schema, dryRun, who, positions, before, 0, before)
  {
    assert targets[0..] == targets && targets[..0] == [];
  }

  lemma LoopEnds(schema: Schema, dryRun: bool, who: Who, targets: seq<Target>, positions: seq<nat>, before: Db,
                 preview: seq<Target>, deleted: map<string, nat>, now: Db)
    requires DistinctNames(schema) && SoundSchema(schema) && Covers(schema, before)
    requires Places(schema, targets, positions)
    requires PreviewSoFar(schema, who, targets, |targets|, preview)
    requires LossesSoFar(schema, dryRun, who, targets, before, |targets|, deleted)
    requires DoneSoFar(schema, dryRun, who, positions, before, |positions|, now)
    ensures preview == Preview(schema, targets, who)
    ensures deleted == if dryRun then map[] else Losses(schema, who, before, targets)
    ensures if dryRun then now == before else AtStage(schema, who, before, now, 0)
  {
    assert targets[|targets|..] == [] && targets[..|targets|] == targets;
    PlacedAt(schema, targets, positions, |positions|);
    if !dryRun {
      StageIdle(schema, who, before, now, positions, |positions|);
    }
  }

  /** The loop over the targets. */
  method PurgeTargets(db: Database, schema: Schema, dryRun: bool, who: Who, targets: seq<Target>,
                      ghost positions: seq<nat>)
    returns (preview: seq<Target>, deleted: map<string, nat>)
    requires DistinctNames(schema) && SoundSchema(schema) && Covers(schema, db.tables) && BatchIdsPresent(db.tables)
    requires Places(schema, targets, positions)
    modifies db
    ensures preview == Preview(schema, targets, who)
    ensures deleted == if dryRun then map[] else Losses(schema, who, old(db.tables), targets)
    ensures dryRun ==> db.tables == old(db.tables) && db.commits == old(db.commits)
    ensures !dryRun ==> AtStage(schema, who, old(db.tables), db.tables, 0)
    ensures old(db.commits) <= db.commits
    ensures CommitsPruned(schema, who, old(db.tables), |old(db.commits)|, db.commits)
  {
    preview, deleted := [], map[];
    ghost var before := db.tables;
    LoopStarts(schema, dryRun, who, targets, positions, before);
    for k := 0 to |targets|
      invariant PreviewSoFar(schema, who, targets, k, preview)
      invariant LossesSoFar(schema, dryRun, who, targets, before, k, deleted)
      invariant DoneSoFar(schema, dryRun, who, positions, before, k, db.tables)
      invariant dryRun ==> db.commits == old(db.commits)
      invariant old(db.commits) <= db.commits
      invariant CommitsPruned(schema, who, before, |old(db.commits)|, db.commits)
    {
      ghost var commits := db.commits;
      preview, deleted := PurgeNext(db, schema, dryRun, who, targets, positions, k, preview, deleted, before);
      CommitsJoined(schema, who, before, |old(db.commits)|, commits, db.commits);
    }
    LoopEnds(schema, dryRun, who, targets, positions, before, preview, deleted, db.tables);
  }

  // ------------------------------------------------------------ row by row

  /** How many rows hold one of the ids in the column. */
  function CountHolding(rows: seq<Row>, column: string, ids: seq<nat>): nat {
    if rows == [] then 0
    else (if Holds(rows[0], column, ids) then 1 else 0) + CountHolding(rows[1..], column, ids)
  }

  lemma {:induction false} IdsOfMembers(rows: seq<Row>, column: string, values: seq<Value>)
    ensures forall value :: value in IdsOf(rows, column, values) <==>
              exists row :: row in rows && In(row, column, values) && Cell(row, "id") == value
  {
    if rows != [] {
      IdsOfMembers(rows[1..], column, values);
      assert forall row :: row in rows <==> row == rows[0] || row in rows[1..];
    }
  }

  lemma {:induction false} IdsOfCount(rows: seq<Row>, column: string, values: seq<Value>, ids: seq<nat>)
    requires forall value :: value in values && value != Null <==> exists k :: 0 <= k < |ids| && value == Id(ids[k])
    ensures |IdsOf(rows, column, values)| == CountHolding(rows, column, ids)
  {
    if rows != [] {
      IdsOfCount(rows[1..], column, values, ids);
      HoldsIsIn(rows[0], column, values, ids);
    }
  }

  lemma HoldsIsIn(row: Row, column: string, values: seq<Value>, ids: seq<nat>)
    requires forall value :: value in values && value != Null <==> exists k :: 0 <= k < |ids| && value == Id(ids[k])
    ensures In(row, column, values) <==> Holds(row, column, ids)
  {
    var value := Cell(row, column);
    assert value in values && value != Null <==> exists k :: 0 <= k < |ids| && value == Id(ids[k]);
  }

  /** When every tenant asked for exists, the tenants found are the tenants asked for. */
  lemma TenantsFound(db: Db, ids: seq<nat>)
    requires "tenants" in db && AllExist(db, ids)
    ensures forall value :: value in TenantIds(db, ids) <==> exists k :: 0 <= k < |ids| && value == Id(ids[k])
  {
    var asked := seq(|ids|, i requires 0 <= i < |ids| => Id(ids[i]));
    IdsOfMembers(db["tenants"], "id", asked);
    forall value | value in TenantIds(db, ids) ensures exists k :: 0 <= k < |ids| && value == Id(ids[k]) {
      assert value in asked;
    }
  }

  lemma TenantsCounted(db: Db, ids: seq<nat>)
    requires "tenants" in db
    ensures |TenantIds(db, ids)| == CountHolding(db["tenants"], "id", ids)
  {
    var asked := seq(|ids|, i requires 0 <= i < |ids| => Id(ids[i]));
    forall k | 0 <= k < |ids| ensures Id(ids[k]) in asked {
      assert asked[k] == Id(ids[k]);
    }
    IdsOfCount(db["tenants"], "id", asked, ids);
  }

  lemma WhoseIs(db: Db, ids: seq<nat>)
    requires "tenants" in db && "users" in db && AllExist(db, ids)
    ensures WhoOf(Whose(db, ids), db["users"], ids)
    ensures |Whose(db, ids).users| == CountHolding(db["users"], "tenant_id", ids)
  {
    var tenants, users := TenantIds(db, ids), db["users"];
    TenantsFound(db, ids);
    IdsOfMembers(users, "tenant_id", tenants);
    IdsOfCount(users, "tenant_id", tenants, ids);
    forall u ensures In(u, "tenant_id", tenants) <==> Holds(u, "tenant_id", ids) {
      HoldsIsIn(u, "tenant_id", tenants, ids);
    }
  }

  lemma {:induction false} SurvivorCounts(table: Table, who: Who, rows: seq<Row>, row: Row)
    ensures multiset(Survivors(table, who, rows))[row] == if Doomed(table, who, row) then 0 else multiset(rows)[row]
  {
    if rows != [] {
      SurvivorCounts(table, who, rows[1..], row);
      assert rows == [rows[0]] + rows[1..];
    }
  }

  lemma {:induction false} WithoutCounts(rows: seq<Row>, ids: set<Value>, row: Row)
    ensures multiset(Without(rows, ids))[row] ==
            if Cell(row, "id") in ids && Cell(row, "id") != Null then 0 else multiset(rows)[row]
  {
    if rows != [] {
      WithoutCounts(rows[1..], ids, row);
      assert rows == [rows[0]] + rows[1..];
    }
  }

  /** Whether a row is deleted: because it belongs to the tenants or their users, or, in the batched
      table, because it shares its id with a row that does. */
  ghost predicate Goes(table: Table, rows: seq<Row>, users: seq<Row>, ids: seq<nat>, row: Row) {
    if table.name == "cost_records" && table.HasColumn("id") then
      exists d :: d in rows && Belongs(table, users, ids, d) && Cell(d, "id") == Cell(row, "id")
    else Belongs(table, users, ids, row)
  }

  /** Every row of every table that does not go is there as often as before, and no row that goes. */
  ghost predicate RowsGone(schema: Schema, ids: seq<nat>, before: Db, now: Db)
    requires Covers(schema, before) && Covers(schema, now) && "users" in before
  {
    forall i, row | 0 <= i < |schema| ::
      multiset(now[schema[i].name])[row] ==
      if Goes(schema[i], before[schema[i].name], before["users"], ids, row) then 0
      else multiset(before[schema[i].name])[row]
  }

  /** A table the purge has something to look for in: it says whose its rows are, by tenant, or by user
      when there are users to purge. */
  ghost predicate Concerned(table: Table, users: seq<Row>, ids: seq<nat>) {
    && table.name != "alembic_version"
    && (|| (exists column :: TenantColumn(table, column))
        || (CountHolding(users, "tenant_id", ids) > 0 && exists column :: UserColumn(table, column)))
  }

  lemma {:induction false} PreviewMembers(schema: Schema, targets: seq<Target>, who: Who, target: Target)
    ensures target in Preview(schema, targets, who) <==>
            && target in targets
            && Position(schema, target.table) < |schema|
            && HasPredicates(schema[Position(schema, target.table)], target, who)
  {
    if targets != [] {
      PreviewMembers(schema, targets[1..], who, target);
      assert target in targets <==> target == targets[0] || target in targets[1..];
    }
  }

  lemma HasPredicatesIff(table: Table, target: Target, who: Who, users: seq<Row>, ids: seq<nat>)
    requires TargetOf(table) == Some(target)
    requires who.tenants != [] && (who.users != [] <==> CountHolding(users, "tenant_id", ids) > 0)
    ensures HasPredicates(table, target, who) <==> Concerned(table, users, ids)
  {
    forall i | 0 <= i < |target.tenantColumns|
      ensures table.HasColumn(target.tenantColumns[i]) <==> TenantColumn(table, target.tenantColumns[i])
    {
      OwnerColumnsAre(table, target.tenantColumns[i]);
    }
    forall i | 0 <= i < |target.userColumns|
      ensures table.HasColumn(target.userColumns[i]) <==> UserColumn(table, target.userColumns[i])
    {
      UserColumnsOf(table, target.userColumns[i]);
    }
    forall column | TenantColumn(table, column) ensures column in target.tenantColumns {
      OwnerColumnsAre(table, column);
    }
    forall column | UserColumn(table, column) ensures column in target.userColumns {
      UserColumnsOf(table, column);
    }
  }

  lemma ConcernedHasTarget(table: Table, users: seq<Row>, ids: seq<nat>)
    requires Concerned(table, users, ids)
    ensures TargetOf(table).Some?
  {
    if column :| TenantColumn(table, column) {
      OwnerColumnsAre(table, column);
    } else {
      var column :| UserColumn(table, column);
      UserColumnsOf(table, column);
    }
  }

  lemma NotEmpty(db: Db, ids: seq<nat>)
    requires "tenants" in db && "users" in db && ids != [] && AllExist(db, ids)
    ensures Whose(db, ids).tenants != []
    ensures Whose(db, ids).users != [] <==> CountHolding(db["users"], "tenant_id", ids) > 0
  {
    WhoseIs(db, ids);
    assert Id(ids[0]) in TenantIds(db, ids);
  }

  lemma TargetsAreTables(schema: Schema, target: Target) returns (i: nat)
    requires DistinctNames(schema) && target in Targets(schema)
    ensures i < |schema| && TargetOf(schema[i]) == Some(target)
  {
    TargetsPlaced(schema);
    var k :| 0 <= k < |Targets(schema)| && Targets(schema)[k] == target;
    i := Positions(Found(schema), |schema|)[k];
  }

  /** A report lists exactly the targets of the tables concerned. */
  lemma PreviewIff(schema: Schema, db: Db, ids: seq<nat>, i: nat)
    requires DistinctNames(schema) && i < |schema|
    requires "tenants" in db && "users" in db && ids != [] && AllExist(db, ids)
    ensures (exists target :: target in Preview(schema, Targets(schema), Whose(db, ids))
                              && target.table == schema[i].name)
            <==> Concerned(schema[i], db["users"], ids)
  {
    var who, users := Whose(db, ids), db["users"];
    NotEmpty(db, ids);
    PositionFound(schema, i);
    if Concerned(schema[i], users, ids) {
      ConcernedHasTarget(schema[i], users, ids);
      var target := TargetOf(schema[i]).value;
      var a := TargetPlace(schema, i);
      HasPredicatesIff(schema[i], target, who, users, ids);
      PreviewMembers(schema, Targets(schema), who, target);
    }
    forall target | target in Preview(schema, Targets(schema), who) && target.table == schema[i].name
      ensures Concerned(schema[i], users, ids)
    {
      PreviewMembers(schema, Targets(schema), who, target);
      var k := TargetsAreTables(schema, target);
      PositionFound(schema, k);
      HasPredicatesIff(schema[i], target, who, users, ids);
    }
  }

  lemma CleanedCounts(table: Table, who: Who, rows: seq<Row>, users: seq<Row>, ids: seq<nat>, row: Row)
    requires WhoOf(who, users, ids) && (table.name == "cost_records" ==> IdsPresent(rows))
    ensures multiset(Cleaned(table, who, rows))[row] ==
            if Goes(table, rows, users, ids, row) then 0 else multiset(rows)[row]
  {
    forall d ensures Doomed(table, who, d) <==> Belongs(table, users, ids, d) {
      DoomedIff(table, who, users, ids, d);
    }
    if table.name == "cost_records" && table.HasColumn("id") {
      var doomed := DoomedIds(table, who, rows);
      WithoutCounts(rows, doomed, row);
      DoomedIdShared(table, who, rows, users, ids, row);
    } else {
      SurvivorCounts(table, who, rows, row);
    }
  }

  lemma DoomedIdShared(table: Table, who: Who, rows: seq<Row>, users: seq<Row>, ids: seq<nat>, row: Row)
    requires IdsPresent(rows) && forall d :: Doomed(table, who, d) <==> Belongs(table, users, ids, d)
    ensures Cell(row, "id") in DoomedIds(table, who, rows) && Cell(row, "id") != Null <==>
            exists d :: d in rows && Belongs(table, users, ids, d) && Cell(d, "id") == Cell(row, "id")
  {
    if d :| d in rows && Belongs(table, users, ids, d) && Cell(d, "id") == Cell(row, "id") {
      var i :| 0 <= i < |rows| && rows[i] == d;
      assert Doomed(table, who, rows[i]);
    }
  }

  /** After an execution exactly the rows of the tenants and of their users are gone. */
  lemma ExecutionRows(schema: Schema, ids: seq<nat>, before: Db, now: Db)
    requires "tenants" in before && "users" in before && AllExist(before, ids) && BatchIdsPresent(before)
    requires AtStage(schema, Whose(before, ids), before, now, 0)
    ensures Covers(schema, now) && RowsGone(schema, ids, before, now)
  {
    WhoseIs(before, ids);
    forall i, row | 0 <= i < |schema|
      ensures multiset(now[schema[i].name])[row] ==
              if Goes(schema[i], before[schema[i].name], before["users"], ids, row) then 0
              else multiset(before[schema[i].name])[row]
    {
      assert TableAt(schema[i], Whose(before, ids), before, now, true);
      CleanedCounts(schema[i], Whose(before, ids), before[schema[i].name], before["users"], ids, row);
    }
  }

  /** The whole purge. A dry run changes nothing and reports the targets an execution would. An
      execution leaves every table purged, and every state it commits is one from which rows have
      gone only for doomed ids, with nothing doomed left that refers to a table that lost rows. */
  method PurgeSimulationData(db: Database, schema: Schema, dryRun: bool, tenantIds: seq<nat>)
    returns (r: Result<Report>)
    requires DistinctNames(schema) && SoundSchema(schema) && Covers(schema, db.tables) && BatchIdsPresent(db.tables)
    requires "tenants" in db.tables && "users" in db.tables
    modifies db
    ensures r.Success? <==> tenantIds != [] && AllExist(old(db.tables), tenantIds)
    ensures r.Failure? || dryRun ==> db.tables == old(db.tables) && db.commits == old(db.commits)
    ensures r.Success? ==> r.value.targets == Preview(schema, Targets(schema), Whose(old(db.tables), tenantIds))
    ensures r.Success? ==>
              r.value.deleted == if dryRun then map[]
                                 else Losses(schema, Whose(old(db.tables), tenantIds), old(db.tables), Targets(schema))
    ensures r.Success? && !dryRun ==>
              AtStage(schema, Whose(old(db.tables), tenantIds), old(db.tables), db.tables, 0)
    ensures r.Success? && !dryRun ==>
              && Covers(schema, db.tables) && RowsGone(schema, tenantIds, old(db.tables), db.tables)
              && db.tables.Keys == old(db.tables).Keys
              && forall name | name in db.tables && name !in Names(schema) :: db.tables[name] == old(db.tables)[name]
    ensures r.Success? ==>
              forall i | 0 <= i < |schema| ::
                (exists target :: target in r.value.targets && target.table == schema[i].name) <==>
                Concerned(schema[i], old(db.tables)["users"], tenantIds)
    ensures r.Success? ==> r.value.users == CountHolding(old(db.tables)["users"], "tenant_id", tenantIds)
    ensures r.Success? ==> r.value.tenants == CountHolding(old(db.tables)["tenants"], "id", tenantIds)
    ensures old(db.commits) <= db.commits
    ensures CommitsPruned(schema, Whose(old(db.tables), tenantIds), old(db.tables), |old(db.commits)|, db.commits)
  {
    if tenantIds == [] {
      return Failure("--tenant-id is required at least once.");
    }
    var targets := CollectPurgeTargets(schema);
    var existing := TenantIds(db.tables, tenantIds);
    for i := 0 to |tenantIds|
      invariant forall k | 0 <= k < i :: Id(tenantIds[k]) in existing
    {
      if Id(tenantIds[i]) !in existing {
        return Failure("Tenant IDs not found");
      }
    }
    var userIds := IdsOf(db.tables["users"], "tenant_id", existing);
    TargetPlaces(schema);
    var preview, deleted :=
      PurgeTargets(db, schema, dryRun, Who(existing, userIds), targets, Positions(Found(schema), |schema|));
    WhoseIs(old(db.tables), tenantIds);
    TenantsCounted(old(db.tables), tenantIds);
    forall i | 0 <= i < |schema|
      ensures (exists target :: target in preview && target.table == schema[i].name) <==>
              Concerned(schema[i], old(db.tables)["users"], tenantIds)
    {
      PreviewIff(schema, old(db.tables), tenantIds, i);
    }
    if !dryRun {
      ExecutionRows(schema, tenantIds, old(db.tables), db.tables);
    }
    r := Success(Report(|existing|, |userIds|, preview, deleted));
  }

  // ------------------------------------------------------------------ results

  /** After an execution a row is in a table exactly when it was there and is not doomed. Only the
      batched table needs more: that no surviving row shares its id with a doomed one. */
  lemma PurgedExactly(schema: Schema, who: Who, before: Db, now: Db, i: nat)
    requires AtStage(schema, who, before, now, 0) && i < |schema| && BatchIdsPresent(before)
    requires schema[i].name == "cost_records" ==> NoSharedIds(schema[i], who, before[schema[i].name])
    ensures now[schema[i].name] == Survivors(schema[i], who, before[schema[i].name])
    ensures forall row :: row in now[schema[i].name] <==> row in before[schema[i].name] && !Doomed(schema[i], who, row)
  {
    var rows := before[schema[i].name];
    assert TableAt(schema[i], who, before, now, true);
    if schema[i].name == "cost_records" {
      ByIdIsByRow(schema[i], who, rows);
    }
    SurvivorMembers(schema[i], who, rows);
  }

  /** When every row that refers to a doomed row is doomed too, an execution leaves no dangling
      reference. (The states committed on the way are covered by `IntegrityKept`.) */
  lemma PurgeKeepsIntegrity(schema: Schema, who: Who, before: Db, now: Db)
    requires ParentsFirst(schema) && BatchIdsPresent(before) && AtStage(schema, who, before, now, 0)
    requires Integrity(schema, before) && Closed(schema, who, before)
    ensures Covers(schema, now) && Integrity(schema, now)
  {
    StagePruned(schema, who, before, now, 0);
    IntegrityKept(schema, who, before, now);
  }
}
