/** The tenant purge (`purge_simulation_data.py`): which tables it empties of which rows, in which
    order, and what every committed state looks like.

    A column lists the tables it refers to; a reference is to the `id` of the other table. The schema
    lists tables as SQLAlchemy sorts them, referenced tables first. */
module Purge {
  import opened Text

  datatype Value = Null | Id(n: nat)

  type Row = map<string, Value>
  type Db = map<string, seq<Row>>

  datatype Column = Column(name: string, references: set<string>)

  datatype Table = Table(name: string, columns: seq<Column>) {
    predicate HasColumn(column: string) {
      exists i | 0 <= i < |columns| :: columns[i].name == column
    }
  }

  type Schema = seq<Table>

  function Cell(row: Row, column: string): Value {
    if column in row then row[column] else Null
  }

  // ----------------------------------------------------------------- targets

  datatype Target = Target(table: string, tenantColumns: seq<string>, userColumns: seq<string>, batched: bool)

  predicate IsTenantColumn(column: Column) {
    column.name == "tenant_id" || "tenants" in column.references
  }

  predicate IsUserColumn(column: Column) {
    column.name == "user_id" || "users" in column.references
  }

  function TenantColumns(columns: seq<Column>): seq<string> {
    if columns == [] then []
    else (if IsTenantColumn(columns[0]) then [columns[0].name] else []) + TenantColumns(columns[1..])
  }

  function UserColumns(columns: seq<Column>): seq<string> {
    if columns == [] then []
    else (if IsUserColumn(columns[0]) then [columns[0].name] else []) + UserColumns(columns[1..])
  }

  /** `list(dict.fromkeys(names))` */
  function Dedup(names: seq<string>): seq<string> {
    if names == [] then []
    else
      var front := Dedup(names[..|names| - 1]);
      if names[|names| - 1] in front then front else front + [names[|names| - 1]]
  }

  /** The columns by which a table's rows belong to a tenant. */
  function OwnerColumns(table: Table): seq<string> {
    var columns := TenantColumns(table.columns);
    Dedup(if table.name == "tenants" then ["id"]
          else if table.name == "users" then Dedup(columns + ["tenant_id"])
          else columns)
  }

  function TargetOf(table: Table): Option<Target> {
    var tenantColumns, userColumns := OwnerColumns(table), Dedup(UserColumns(table.columns));
    if table.name == "alembic_version" || (tenantColumns == [] && userColumns == []) then None
    else Some(Target(table.name, tenantColumns, userColumns, table.name == "cost_records"))
  }

  function Names(schema: Schema): seq<string> {
    seq(|schema|, i requires 0 <= i < |schema| => schema[i].name)
  }

  function Found(schema: Schema): seq<Option<Target>> {
    seq(|schema|, i requires 0 <= i < |schema| => TargetOf(schema[i]))
  }

  /** The targets of the tables before position `n`, last table first. */
  function TargetsBefore(names: seq<string>, found: seq<Option<Target>>, n: nat, seen: set<string>): seq<Target>
    requires n <= |names| == |found|
  {
    if n == 0 then []
    else if found[n - 1].None? || names[n - 1] in seen then TargetsBefore(names, found, n - 1, seen)
    else [found[n - 1].value] + TargetsBefore(names, found, n - 1, seen + {names[n - 1]})
  }

  /** `collect_purge_targets` */
  function Targets(schema: Schema): seq<Target> {
    TargetsBefore(Names(schema), Found(schema), |schema|, {})
  }

  method ScanColumns(columns: seq<Column>) returns (tenantColumns: seq<string>, userColumns: seq<string>)
    ensures tenantColumns == TenantColumns(columns) && userColumns == UserColumns(columns)
  {
    tenantColumns, userColumns := [], [];
    assert columns[0..] == columns;
    for i := 0 to |columns|
      invariant tenantColumns + TenantColumns(columns[i..]) == TenantColumns(columns)
      invariant userColumns + UserColumns(columns[i..]) == UserColumns(columns)
    {
      assert columns[i..][1..] == columns[i + 1..];
      if IsTenantColumn(columns[i]) {
        tenantColumns := tenantColumns + [columns[i].name];
      }
      if IsUserColumn(columns[i]) {
        userColumns := userColumns + [columns[i].name];
      }
    }
  }

  method ScanTable(table: Table) returns (target: Option<Target>)
    ensures target == TargetOf(table)
  {
    if table.name == "alembic_version" {
      return None;
    }
    var tenantColumns, userColumns := ScanColumns(table.columns);
    if table.name == "tenants" {
      tenantColumns := ["id"];
    } else if table.name == "users" {
      tenantColumns := Dedup(tenantColumns + ["tenant_id"]);
    }
    tenantColumns, userColumns := Dedup(tenantColumns), Dedup(userColumns);
    if tenantColumns == [] && userColumns == [] {
      return None;
    }
    return Some(Target(table.name, tenantColumns, userColumns, table.name == "cost_records"));
  }

  method CollectPurgeTargets(schema: Schema) returns (targets: seq<Target>)
    ensures targets == Targets(schema)
  {
    targets := [];
    var seen: set<string> := {};
    ghost var names, found := Names(schema), Found(schema);
    ghost var left := Targets(schema);
    for n := |schema| downto 0
      invariant left == TargetsBefore(names, found, n, seen)
      invariant targets + left == Targets(schema)
    {
      var target := ScanTable(schema[n]);
      if schema[n].name !in seen && target.Some? {
        seen := seen + {schema[n].name};
        targets := targets + [target.value];
      }
      left := TargetsBefore(names, found, n, seen);
    }
  }

  predicate DistinctNames(schema: Schema) {
    forall i, j | 0 <= i < j < |schema| :: schema[i].name != schema[j].name
  }

  // ------------------------------------------------------------ doomed rows

  datatype Who = Who(tenants: seq<Value>, users: seq<Value>)

  predicate HasPredicates(table: Table, target: Target, who: Who) {
    || (who.tenants != [] && exists i | 0 <= i < |target.tenantColumns| :: table.HasColumn(target.tenantColumns[i]))
    || (who.users != [] && exists i | 0 <= i < |target.userColumns| :: table.HasColumn(target.userColumns[i]))
  }

  /** `column IN (values)`, which no null satisfies. */
  predicate In(row: Row, column: string, values: seq<Value>) {
    Cell(row, column) != Null && Cell(row, column) in values
  }

  /** The disjunction of `_build_delete_predicates`. */
  predicate Matches(table: Table, target: Target, who: Who, row: Row) {
    || (exists i | 0 <= i < |target.tenantColumns| ::
          table.HasColumn(target.tenantColumns[i]) && In(row, target.tenantColumns[i], who.tenants))
    || (exists i | 0 <= i < |target.userColumns| ::
          table.HasColumn(target.userColumns[i]) && In(row, target.userColumns[i], who.users))
  }

  /** A row the purge is meant to delete. */
  predicate Doomed(table: Table, who: Who, row: Row) {
    var target := TargetOf(table);
    target.Some? && Matches(table, target.value, who, row)
  }

  function Survivors(table: Table, who: Who, rows: seq<Row>): seq<Row> {
    if rows == [] then []
    else
      var rest := Survivors(table, who, rows[1..]);
      if Doomed(table, who, rows[0]) then rest else [rows[0]] + rest
  }

  function DoomedIds(table: Table, who: Who, rows: seq<Row>): set<Value> {
    set i | 0 <= i < |rows| && Doomed(table, who, rows[i]) :: Cell(rows[i], "id")
  }

  /** `DELETE ... WHERE id IN (ids)` */
  function Without(rows: seq<Row>, ids: set<Value>): seq<Row> {
    if rows == [] then []
    else
      var rest := Without(rows[1..], ids);
      if Cell(rows[0], "id") in ids && Cell(rows[0], "id") != Null then rest else [rows[0]] + rest
  }

  lemma {:induction false} WithoutTwice(rows: seq<Row>, a: set<Value>, b: set<Value>)
    ensures Without(Without(rows, a), b) == Without(rows, a + b)
  {
    if rows != [] {
      WithoutTwice(rows[1..], a, b);
    }
  }

  lemma {:induction false} WithoutNothing(rows: seq<Row>)
    ensures Without(rows, {}) == rows
  {
    if rows != [] {
      WithoutNothing(rows[1..]);
    }
  }

  lemma {:induction false} WithoutMembers(rows: seq<Row>, ids: set<Value>)
    ensures forall row :: row in Without(rows, ids) <==>
              row in rows && (Cell(row, "id") == Null || Cell(row, "id") !in ids)
    ensures |Without(rows, ids)| <= |rows|
  {
    if rows != [] {
      WithoutMembers(rows[1..], ids);
    }
  }

  lemma {:induction false} WithoutShrinks(rows: seq<Row>, ids: set<Value>, k: nat)
    requires k < |rows| && Cell(rows[k], "id") in ids && Cell(rows[k], "id") != Null
    ensures |Without(rows, ids)| < |rows|
  {
    WithoutMembers(rows[1..], ids);
    if k > 0 {
      WithoutShrinks(rows[1..], ids, k - 1);
    }
  }

  lemma {:induction false} SurvivorMembers(table: Table, who: Who, rows: seq<Row>)
    ensures forall row :: row in Survivors(table, who, rows) <==> row in rows && !Doomed(table, who, row)
    ensures |Survivors(table, who, rows)| <= |rows|
  {
    if rows != [] {
      SurvivorMembers(table, who, rows[1..]);
    }
  }

  /** No surviving row has the id of a doomed one. */
  predicate NoSharedIds(table: Table, who: Who, rows: seq<Row>) {
    forall i | 0 <= i < |rows| && !Doomed(table, who, rows[i]) :: Cell(rows[i], "id") !in DoomedIds(table, who, rows)
  }

  predicate IdsPresent(rows: seq<Row>) {
    forall i | 0 <= i < |rows| :: Cell(rows[i], "id") != Null
  }

  /** Deleting by the ids of the doomed rows deletes exactly the doomed rows just when no surviving
      row shares an id with them. */
  lemma ByIdIsByRow(table: Table, who: Who, rows: seq<Row>)
    requires IdsPresent(rows)
    ensures Without(rows, DoomedIds(table, who, rows)) == Survivors(table, who, rows) <==> NoSharedIds(table, who, rows)
  {
    var ids := DoomedIds(table, who, rows);
    if NoSharedIds(table, who, rows) {
      SameFilter(table, who, rows, ids);
    } else {
      var i :| 0 <= i < |rows| && !Doomed(table, who, rows[i]) && Cell(rows[i], "id") in ids;
      SurvivorMembers(table, who, rows);
      WithoutMembers(rows, ids);
      assert rows[i] in Survivors(table, who, rows) && rows[i] !in Without(rows, ids);
    }
  }

  lemma {:induction false} SameFilter(table: Table, who: Who, rows: seq<Row>, ids: set<Value>)
    requires forall i | 0 <= i < |rows| ::
               (Cell(rows[i], "id") in ids && Cell(rows[i], "id") != Null) <==> Doomed(table, who, rows[i])
    ensures Without(rows, ids) == Survivors(table, who, rows)
  {
    if rows != [] {
      SameFilter(table, who, rows[1..], ids);
    }
  }

  // ------------------------------------------------------------------ order

  /** The positions of the tables with targets, last first. */
  function Positions(found: seq<Option<Target>>, n: nat): seq<nat>
    requires n <= |found|
  {
    if n == 0 then []
    else if found[n - 1].Some? then [n - 1] + Positions(found, n - 1)
    else Positions(found, n - 1)
  }

  /** Every table with a target is there once, and positions fall. */
  lemma {:induction false} PositionsDescend(found: seq<Option<Target>>, n: nat)
    requires n <= |found|
    ensures var p := Positions(found, n);
            && (forall k | 0 <= k < |p| :: p[k] < n && found[p[k]].Some?)
            && (forall j, k | 0 <= j < k < |p| :: p[k] < p[j])
            && (forall i | 0 <= i < n && found[i].Some? :: i in p)
  {
    if n > 0 {
      PositionsDescend(found, n - 1);
    }
  }

  /** The targets are those of the tables at these positions. */
  lemma {:induction false} TargetsInOrder(names: seq<string>, found: seq<Option<Target>>, n: nat, seen: set<string>)
    requires n <= |names| == |found| && forall i, j | 0 <= i < j < |names| :: names[i] != names[j]
    requires forall i | 0 <= i < n :: names[i] !in seen
    ensures var targets, p := TargetsBefore(names, found, n, seen), Positions(found, n);
            |targets| == |p| && forall k | 0 <= k < |p| :: p[k] < n && found[p[k]] == Some(targets[k])
  {
    if n > 0 {
      TargetsInOrder(names, found, n - 1, if found[n - 1].Some? then seen + {names[n - 1]} else seen);
    }
  }

  /** Where the target of table `i` stands: it is there, and no other target is for the same table. */
  lemma TargetPlace(schema: Schema, i: nat) returns (a: nat)
    requires DistinctNames(schema) && i < |schema| && TargetOf(schema[i]).Some?
    ensures |Targets(schema)| == |Positions(Found(schema), |schema|)|
    ensures a < |Targets(schema)| && Positions(Found(schema), |schema|)[a] == i
    ensures Targets(schema)[a] == TargetOf(schema[i]).value
    ensures forall m | 0 <= m < |Targets(schema)| :: Targets(schema)[m].table == schema[i].name <==> m == a
  {
    var names, found := Names(schema), Found(schema);
    var targets, p := Targets(schema), Positions(found, |schema|);
    PositionsDescend(found, |schema|);
    TargetsInOrder(names, found, |schema|, {});
    assert found[i].Some?;
    a :| 0 <= a < |p| && p[a] == i;
    assert found[p[a]] == Some(targets[a]);
    forall m | 0 <= m < |targets| ensures targets[m].table == schema[i].name <==> m == a {
      assert found[p[m]] == Some(targets[m]) && targets[m].table == schema[p[m]].name;
    }
  }

  // ------------------------------------------------------- referential integrity

  predicate RefersTo(table: Table, column: string, other: string) {
    exists i | 0 <= i < |table.columns| :: table.columns[i].name == column && other in table.columns[i].references
  }

  ghost predicate References(table: Table, other: Table) {
    exists column :: RefersTo(table, column, other.name)
  }

  predicate HasId(rows: seq<Row>, id: Value) {
    exists i | 0 <= i < |rows| :: Cell(rows[i], "id") == id
  }

  predicate Covers(schema: Schema, db: Db) {
    forall i | 0 <= i < |schema| :: schema[i].name in db
  }

  /** Every reference that is not null is to a row that exists. */
  ghost predicate Integrity(schema: Schema, db: Db)
    requires Covers(schema, db)
  {
    forall i, j, column, k |
      0 <= i < |schema| && 0 <= j < |schema| && RefersTo(schema[i], column, schema[j].name)
      && 0 <= k < |db[schema[i].name]| ::
      Cell(db[schema[i].name][k], column) == Null || HasId(db[schema[j].name], Cell(db[schema[i].name][k], column))
  }

  /** Whatever refers to a doomed row is doomed. */
  ghost predicate Closed(schema: Schema, who: Who, db: Db)
    requires Covers(schema, db)
  {
    forall i, j, column, a, b |
      0 <= i < |schema| && 0 <= j < |schema| && RefersTo(schema[i], column, schema[j].name)
      && a in db[schema[i].name] && b in db[schema[j].name] && Cell(a, column) != Null
      && Cell(b, "id") == Cell(a, column)
      && Doomed(schema[j], who, b) ::
      Doomed(schema[i], who, a)
  }

  /** Referenced tables come first; a table may refer to itself. */
  ghost predicate ParentsFirst(schema: Schema) {
    forall i, j | 0 <= i < |schema| && 0 <= j < |schema| && References(schema[i], schema[j]) :: j <= i
  }

  /** A table is purged before every other table it may refer to, and each of the two once. */
  lemma ReferringTablesFirst(schema: Schema, i: nat, j: nat) returns (a: nat, b: nat)
    requires DistinctNames(schema) && ParentsFirst(schema) && i < |schema| && j < |schema| && i != j
    requires References(schema[i], schema[j]) && TargetOf(schema[i]).Some? && TargetOf(schema[j]).Some?
    ensures a < b < |Targets(schema)|
    ensures Targets(schema)[a] == TargetOf(schema[i]).value && Targets(schema)[b] == TargetOf(schema[j]).value
    ensures forall m | 0 <= m < |Targets(schema)| ::
              && (Targets(schema)[m].table == schema[i].name <==> m == a)
              && (Targets(schema)[m].table == schema[j].name <==> m == b)
  {
    a := TargetPlace(schema, i);
    b := TargetPlace(schema, j);
    PositionsDescend(Found(schema), |schema|);
    assert j < i;
  }

  /** A row goes only together with a doomed row of the same id. */
  ghost predicate OnlyDoomedGone(table: Table, who: Who, before: seq<Row>, after: seq<Row>) {
    && (forall row | row in after :: row in before)
    && (forall row | row in before && row !in after ::
          exists d :: d in before && Doomed(table, who, d) && Cell(d, "id") == Cell(row, "id"))
  }

  ghost predicate NoneDoomed(table: Table, who: Who, rows: seq<Row>) {
    forall row | row in rows :: !Doomed(table, who, row)
  }

  /** What a committed state of the purge looks like: rows go only for doomed ids, and a table has
      lost rows only when no table that refers to it has a doomed row left. */
  ghost predicate Pruned(schema: Schema, who: Who, before: Db, after: Db)
    requires Covers(schema, before)
  {
    && Covers(schema, after)
    && (forall i | 0 <= i < |schema| ::
          OnlyDoomedGone(schema[i], who, before[schema[i].name], after[schema[i].name]))
    && (forall i, j | 0 <= i < |schema| && 0 <= j < |schema| && References(schema[i], schema[j])
          && after[schema[j].name] != before[schema[j].name] ::
          NoneDoomed(schema[i], who, after[schema[i].name]))
  }

  /** Such a state has no dangling reference. */
  lemma IntegrityKept(schema: Schema, who: Who, before: Db, after: Db)
    requires Covers(schema, before) && Integrity(schema, before) && Closed(schema, who, before)
    requires Pruned(schema, who, before, after)
    ensures Integrity(schema, after)
  {
    forall i, j, column, k |
      0 <= i < |schema| && 0 <= j < |schema| && RefersTo(schema[i], column, schema[j].name)
      && 0 <= k < |after[schema[i].name]|
      && Cell(after[schema[i].name][k], column) != Null
      ensures HasId(after[schema[j].name], Cell(after[schema[i].name][k], column))
    {
      ReferenceKept(schema, who, before, after, i, j, column, after[schema[i].name][k]);
    }
  }

  lemma ReferenceKept(schema: Schema, who: Who, before: Db, after: Db, i: nat, j: nat, column: string, a: Row)
    requires Covers(schema, before) && Integrity(schema, before) && Closed(schema, who, before)
    requires Pruned(schema, who, before, after) && i < |schema| && j < |schema|
    requires RefersTo(schema[i], column, schema[j].name) && a in after[schema[i].name] && Cell(a, column) != Null
    ensures HasId(after[schema[j].name], Cell(a, column))
  {
    var children, parents := before[schema[i].name], before[schema[j].name];
    assert OnlyDoomedGone(schema[i], who, children, after[schema[i].name]);
    assert OnlyDoomedGone(schema[j], who, parents, after[schema[j].name]);
    var k :| 0 <= k < |children| && children[k] == a;
    assert Cell(children[k], column) == Null || HasId(parents, Cell(children[k], column));
    var m :| 0 <= m < |parents| && Cell(parents[m], "id") == Cell(a, column);
    var b := parents[m];
    if after[schema[j].name] != parents {
      assert References(schema[i], schema[j]);
      assert NoneDoomed(schema[i], who, after[schema[i].name]);
      forall d | d in parents && Cell(d, "id") == Cell(b, "id") ensures !Doomed(schema[j], who, d) {
        assert Cell(d, "id") == Cell(a, column);
      }
      assert b in after[schema[j].name];
      var h :| 0 <= h < |after[schema[j].name]| && after[schema[j].name][h] == b;
    }
  }
}
