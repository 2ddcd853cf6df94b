/** Which rows a purge is about, told from their cells and the tables' columns alone. */
module PurgeRows {
  import opened Purge
  import opened Text

  /** A column that says which tenant a row belongs to: `id` in the table of the tenants, elsewhere a
      column called `tenant_id` or one that refers to the tenants. */
  ghost predicate TenantColumn(table: Table, column: string) {
    if table.name == "tenants" then column == "id" && table.HasColumn("id")
    else Labelled(table, column, "tenant_id", "tenants")
  }

  /** A column that says which user a row belongs to. */
  ghost predicate UserColumn(table: Table, column: string) {
    Labelled(table, column, "user_id", "users")
  }

  /** A column with this name, or one that refers to the table. */
  ghost predicate Labelled(table: Table, column: string, name: string, other: string) {
    exists i ::
      && 0 <= i < |table.columns| && table.columns[i].name == column
      && (column == name || other in table.columns[i].references)
  }

  /** The cell holds one of the ids. */
  predicate Holds(row: Row, column: string, ids: seq<nat>) {
    exists k :: 0 <= k < |ids| && Cell(row, column) == Id(ids[k])
  }

  ghost predicate OfTenant(table: Table, ids: seq<nat>, row: Row) {
    exists column :: TenantColumn(table, column) && Holds(row, column, ids)
  }

  /** A user of one of the tenants whose id the row holds. */
  ghost predicate OfUser(table: Table, users: seq<Row>, ids: seq<nat>, row: Row) {
    exists column, u ::
      && UserColumn(table, column) && u in users && Holds(u, "tenant_id", ids)
      && Cell(row, column) != Null && Cell(u, "id") == Cell(row, column)
  }

  /** The row belongs to one of the tenants or to one of their users. */
  ghost predicate Belongs(table: Table, users: seq<Row>, ids: seq<nat>, row: Row) {
    table.name != "alembic_version" && (OfTenant(table, ids, row) || OfUser(table, users, ids, row))
  }

  // --------------------------------------------------- the columns of a target

  lemma {:induction false} TenantColumnsAre(columns: seq<Column>, column: string)
    ensures column in TenantColumns(columns) <==>
            exists i :: 0 <= i < |columns| && columns[i].name == column
                        && (column == "tenant_id" || "tenants" in columns[i].references)
  {
    if columns != [] {
      TenantColumnsAre(columns[1..], column);
      assert forall i | 0 < i < |columns| :: columns[i] == columns[1..][i - 1];
      assert forall i | 0 <= i < |columns| - 1 :: columns[1..][i] == columns[i + 1];
    }
  }

  lemma {:induction false} UserColumnsAre(columns: seq<Column>, column: string)
    ensures column in UserColumns(columns) <==>
            exists i :: 0 <= i < |columns| && columns[i].name == column
                        && (column == "user_id" || "users" in columns[i].references)
  {
    if columns != [] {
      UserColumnsAre(columns[1..], column);
      assert forall i | 0 < i < |columns| :: columns[i] == columns[1..][i - 1];
      assert forall i | 0 <= i < |columns| - 1 :: columns[1..][i] == columns[i + 1];
    }
  }

  lemma {:induction false} DedupMembers(names: seq<string>)
    ensures forall name :: name in Dedup(names) <==> name in names
  {
    if names != [] {
      var front, last := names[..|names| - 1], names[|names| - 1];
      DedupMembers(front);
      assert names == front + [last];
    }
  }

  /** The owner columns a table really has are its tenant columns. */
  lemma OwnerColumnsAre(table: Table, column: string)
    ensures column in OwnerColumns(table) && table.HasColumn(column) <==> TenantColumn(table, column)
  {
    var columns := TenantColumns(table.columns);
    TenantColumnsAre(table.columns, column);
    DedupMembers(columns + ["tenant_id"]);
    DedupMembers(if table.name == "tenants" then ["id"]
                 else if table.name == "users" then Dedup(columns + ["tenant_id"]) else columns);
    if table.HasColumn(column) {
      var i :| 0 <= i < |table.columns| && table.columns[i].name == column;
    }
  }

  lemma UserColumnsOf(table: Table, column: string)
    ensures column in Dedup(UserColumns(table.columns)) && table.HasColumn(column) <==> UserColumn(table, column)
  {
    UserColumnsAre(table.columns, column);
    DedupMembers(UserColumns(table.columns));
  }

  // -------------------------------------------------------------- doomed rows

  /** Who is purged when all of the given tenants exist. */
  ghost predicate WhoOf(who: Who, users: seq<Row>, ids: seq<nat>) {
    && (forall value :: value in who.tenants <==> exists k :: 0 <= k < |ids| && value == Id(ids[k]))
    && (forall value :: value in who.users <==>
          exists u :: u in users && Holds(u, "tenant_id", ids) && Cell(u, "id") == value)
  }

  lemma TenantMatch(table: Table, target: Target, who: Who, users: seq<Row>, ids: seq<nat>, row: Row)
    requires TargetOf(table) == Some(target) && WhoOf(who, users, ids)
    ensures OfTenant(table, ids, row) <==>
            exists i | 0 <= i < |target.tenantColumns| ::
              table.HasColumn(target.tenantColumns[i]) && In(row, target.tenantColumns[i], who.tenants)
  {
    if OfTenant(table, ids, row) {
      var column :| TenantColumn(table, column) && Holds(row, column, ids);
      OwnerColumnsAre(table, column);
      var i :| 0 <= i < |target.tenantColumns| && target.tenantColumns[i] == column;
      assert In(row, target.tenantColumns[i], who.tenants);
    }
    forall i | 0 <= i < |target.tenantColumns| && table.HasColumn(target.tenantColumns[i])
               && In(row, target.tenantColumns[i], who.tenants)
      ensures OfTenant(table, ids, row)
    {
      OwnerColumnsAre(table, target.tenantColumns[i]);
      assert Holds(row, target.tenantColumns[i], ids);
    }
  }

  lemma UserMatch(table: Table, target: Target, who: Who, users: seq<Row>, ids: seq<nat>, row: Row)
    requires TargetOf(table) == Some(target) && WhoOf(who, users, ids)
    ensures OfUser(table, users, ids, row) <==>
            exists i | 0 <= i < |target.userColumns| ::
              table.HasColumn(target.userColumns[i]) && In(row, target.userColumns[i], who.users)
  {
    if OfUser(table, users, ids, row) {
      var column, u :| UserColumn(table, column) && u in users && Holds(u, "tenant_id", ids)
                       && Cell(row, column) != Null && Cell(u, "id") == Cell(row, column);
      UserColumnsOf(table, column);
      var i :| 0 <= i < |target.userColumns| && target.userColumns[i] == column;
      assert In(row, target.userColumns[i], who.users);
    }
    forall i | 0 <= i < |target.userColumns| && table.HasColumn(target.userColumns[i])
               && In(row, target.userColumns[i], who.users)
      ensures OfUser(table, users, ids, row)
    {
      UserColumnsOf(table, target.userColumns[i]);
      var u :| u in users && Holds(u, "tenant_id", ids) && Cell(u, "id") == Cell(row, target.userColumns[i]);
    }
  }

  lemma NoTarget(table: Table, users: seq<Row>, ids: seq<nat>, row: Row)
    requires TargetOf(table) == None
    ensures !Belongs(table, users, ids, row)
  {
    if OfTenant(table, ids, row) {
      var column :| TenantColumn(table, column) && Holds(row, column, ids);
      OwnerColumnsAre(table, column);
    }
    if OfUser(table, users, ids, row) {
      var column, u :| UserColumn(table, column) && u in users && Holds(u, "tenant_id", ids)
                       && Cell(row, column) != Null && Cell(u, "id") == Cell(row, column);
      UserColumnsOf(table, column);
    }
  }

  /** The rows the purge is meant to delete are those that belong to the tenants or their users. */
  lemma DoomedIff(table: Table, who: Who, users: seq<Row>, ids: seq<nat>, row: Row)
    requires WhoOf(who, users, ids)
    ensures Doomed(table, who, row) <==> Belongs(table, users, ids, row)
  {
    if TargetOf(table) == None {
      NoTarget(table, users, ids, row);
    } else {
      TenantMatch(table, TargetOf(table).value, who, users, ids, row);
      UserMatch(table, TargetOf(table).value, who, users, ids, row);
    }
  }
}
