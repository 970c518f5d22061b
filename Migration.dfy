/** The schema migration of `migrate_database` in migrate_database.py, on an
    abstract SQLite schema: the set of table names, the column names of each
    table, the set of index names and the set of tables that hold rows.
    Statements that change the schema take effect as they run; a failing
    statement stops the run where it is. */
module Migration {
  import opened Seqs

  /** `populated` names the tables that hold at least one row; the migration
      adds no rows, so it never changes. */
  datatype Schema = Schema(tables: set<string>, columns: map<string, set<string>>, indexes: set<string>,
                           populated: set<string>)

  /** The column names `PRAGMA table_info` reports for `table`. */
  function ColumnsOf(s: Schema, table: string): set<string> {
    if table in s.columns then s.columns[table] else {}
  }

  function Elems(xs: seq<string>): (r: set<string>)
    ensures forall x :: x in r <==> x in xs
  {
    set x | x in xs
  }

  lemma ElemsSnoc(xs: seq<string>, x: string)
    ensures Elems(xs + [x]) == Elems(xs) + {x}
  {
  }

  const UserLocations := "user_locations"
  const UserPermissions := "user_permissions"

  /** Columns added to `user_locations`, with their SQL types. */
  const NewColumns: seq<(string, string)> :=
    [("guild_id", "TEXT"), ("store_category", "TEXT"), ("weather_data", "TEXT"),
     ("visit_duration", "INTEGER"), ("session_id", "TEXT")]

  function ColumnNames(): (r: seq<string>)
    ensures |r| == |NewColumns|
    ensures forall i :: 0 <= i < |r| ==> r[i] == NewColumns[i].0
  {
    seq(|NewColumns|, i requires 0 <= i < |NewColumns| => NewColumns[i].0)
  }

  /** `CREATE INDEX IF NOT EXISTS name ON table(on...)`. */
  datatype IndexDef = IndexDef(name: string, table: string, on: seq<string>)

  function Indexes(): seq<IndexDef> {
    [IndexDef("idx_user_timestamp", UserLocations, ["user_id", "timestamp"]),
     IndexDef("idx_location", UserLocations, ["lat", "lng"]),
     IndexDef("idx_store_category", UserLocations, ["store_category"])]
  }

  /** The tables created when absent, in the dictionary's insertion order. */
  function NewTables(): seq<string> {
    ["favorite_locations", "usage_analytics", "location_sessions", "session_participants", "store_cache"]
  }

  const PermissionColumns: seq<string> := ["permissions", "last_used"]

  /** The kinds of line in the applied-migrations list that name something. */
  datatype LogKind = ColumnAdded | TableCreated | PermissionAdded

  /** A line of the applied-migrations list. */
  datatype LogLine = Line(kind: LogKind, name: string) | IndexCreated

  /** The text printed for a line. */
  function Text(l: LogLine): string {
    match l
    case Line(ColumnAdded, name) => "Added column " + name + " to user_locations"
    case Line(TableCreated, name) => "Created table " + name
    case Line(PermissionAdded, name) => "Added " + name + " column to user_permissions"
    case IndexCreated => "Created index"
  }

  // ------------------------------------------------------------ missing names

  /** Which of `names` are absent from `present`. */
  function Absent(names: seq<string>, present: set<string>): (r: seq<bool>)
    ensures |r| == |names|
    ensures forall i :: 0 <= i < |names| ==> (r[i] <==> names[i] !in present)
  {
    seq(|names|, i requires 0 <= i < |names| => names[i] !in present)
  }

  /** The first `k` of `names` that are absent from `present`, in order. */
  function MissingUpTo(names: seq<string>, present: set<string>, k: nat): seq<string>
    requires k <= |names|
  {
    SelectedUpTo(Absent(names, present), names, k)
  }

  /** Checking one more name adds it exactly when it is absent. */
  lemma MissingStep(names: seq<string>, present: set<string>, k: nat)
    requires k < |names|
    ensures MissingUpTo(names, present, k + 1)
            == MissingUpTo(names, present, k) + if names[k] in present then [] else [names[k]]
  {
  }

  lemma {:induction false} MissingMembers(names: seq<string>, present: set<string>, k: nat)
    requires k <= |names|
    ensures forall x :: x in MissingUpTo(names, present, k) <==> x in names[..k] && x !in present
  {
    if k > 0 {
      MissingMembers(names, present, k - 1);
      assert names[..k] == names[..k - 1] + [names[k - 1]];
    }
  }

  /** The missing names are the absent ones, in list order. */
  lemma MissingInOrder(names: seq<string>, present: set<string>)
    ensures Subsequence(MissingUpTo(names, present, |names|), names)
    ensures forall x :: x in MissingUpTo(names, present, |names|) <==> x in names && x !in present
  {
    SelectedUpToSubsequence(Absent(names, present), names, |names|);
    MissingMembers(names, present, |names|);
    assert names[..|names|] == names;
  }

  /** Nothing is missing once every name is present. */
  lemma {:induction false} NothingMissing(names: seq<string>, present: set<string>, k: nat)
    requires k <= |names| && forall x :: x in names ==> x in present
    ensures MissingUpTo(names, present, k) == []
  {
    if k > 0 {
      NothingMissing(names, present, k - 1);
      assert names[k - 1] in present;
    }
  }

  /** One log line per name, in order. */
  function Messages(names: seq<string>, kind: LogKind): (r: seq<LogLine>)
    ensures |r| == |names|
    ensures forall i :: 0 <= i < |names| ==> r[i] == Line(kind, names[i])
  {
    if names == [] then []
    else Messages(names[..|names| - 1], kind) + [Line(kind, names[|names| - 1])]
  }

  lemma MessagesSnoc(names: seq<string>, kind: LogKind, x: string)
    ensures Messages(names + [x], kind) == Messages(names, kind) + [Line(kind, x)]
  {
    assert (names + [x])[..|names|] == names;
  }

  // ------------------------------------------------------------ the steps

  /** `ALTER TABLE table ADD COLUMN name`. */
  function AddColumn(s: Schema, table: string, name: string): (r: Schema)
    ensures ColumnsOf(r, table) == ColumnsOf(s, table) + {name}
    ensures forall t :: t != table ==> ColumnsOf(r, t) == ColumnsOf(s, t)
    ensures r.tables == s.tables && r.indexes == s.indexes && r.populated == s.populated
  {
    s.(columns := s.columns[table := ColumnsOf(s, table) + {name}])
  }

  /** The schema after the first `k` of `names` have been checked against the
      snapshot `existing` and the absent ones added to `table`. */
  function ColumnsUpTo(s: Schema, table: string, names: seq<string>, existing: set<string>, k: nat): Schema
    requires k <= |names|
  {
    if k == 0 then s
    else
      var t := ColumnsUpTo(s, table, names, existing, k - 1);
      if names[k - 1] in existing then t else AddColumn(t, table, names[k - 1])
  }

  /** Checking one more name adds it to `table` exactly when it is not in `existing`. */
  lemma ColumnsStep(s: Schema, table: string, names: seq<string>, existing: set<string>, k: nat)
    requires k < |names|
    ensures ColumnsUpTo(s, table, names, existing, k + 1)
            == if names[k] in existing then ColumnsUpTo(s, table, names, existing, k)
               else AddColumn(ColumnsUpTo(s, table, names, existing, k), table, names[k])
  {
  }

  /** Adding columns touches only `table`, which gains exactly the missing names. */
  lemma {:induction false} ColumnsUpToFacts(s: Schema, table: string, names: seq<string>, existing: set<string>, k: nat)
    requires k <= |names|
    ensures ColumnsOf(ColumnsUpTo(s, table, names, existing, k), table)
            == ColumnsOf(s, table) + Elems(MissingUpTo(names, existing, k))
    ensures forall t :: t != table ==> ColumnsOf(ColumnsUpTo(s, table, names, existing, k), t) == ColumnsOf(s, t)
    ensures ColumnsUpTo(s, table, names, existing, k).tables == s.tables
    ensures ColumnsUpTo(s, table, names, existing, k).indexes == s.indexes
    ensures ColumnsUpTo(s, table, names, existing, k).populated == s.populated
  {
    if k > 0 {
      ColumnsUpToFacts(s, table, names, existing, k - 1);
      var m := MissingUpTo(names, existing, k - 1);
      if names[k - 1] !in existing {
        assert MissingUpTo(names, existing, k) == m + [names[k - 1]];
        assert Elems(m + [names[k - 1]]) == Elems(m) + {names[k - 1]};
      } else {
        assert MissingUpTo(names, existing, k) == m;
      }
    }
  }

  /** Migration 1: the missing columns of `user_locations`, when it exists. */
  function AddedColumns(s: Schema): seq<string> {
    if UserLocations in s.tables then MissingUpTo(ColumnNames(), ColumnsOf(s, UserLocations), |NewColumns|)
    else []
  }

  function AfterColumns(s: Schema): Schema {
    if UserLocations in s.tables
    then ColumnsUpTo(s, UserLocations, ColumnNames(), ColumnsOf(s, UserLocations), |NewColumns|)
    else s
  }

  /** `CREATE INDEX` succeeds on an existing table whose columns include the indexed ones. */
  predicate Creatable(s: Schema, d: IndexDef) {
    d.table in s.tables && forall c :: c in d.on ==> c in ColumnsOf(s, d.table)
  }

  datatype IndexRun = IndexRun(ok: bool, indexes: set<string>)

  /** Migration 2 after the first `k` index statements. SQLite looks the
      table up first, so a missing table fails the statement even when an
      index of that name exists; on an existing table an index whose name
      exists is skipped and a missing one is created when its columns exist.
      A statement that fails stops the step. */
  function IndexesUpTo(s: Schema, k: nat): IndexRun
    requires k <= |Indexes()|
  {
    if k == 0 then IndexRun(true, s.indexes)
    else
      var r := IndexesUpTo(s, k - 1);
      var d := Indexes()[k - 1];
      if !r.ok then r
      else if d.table !in s.tables then IndexRun(false, r.indexes)
      else if d.name in r.indexes then r
      else if Creatable(s, d) then IndexRun(true, r.indexes + {d.name})
      else IndexRun(false, r.indexes)
  }

  /** Migration 3: the new tables absent from the snapshot `existing`. */
  function CreatedTables(existing: set<string>): seq<string> {
    MissingUpTo(NewTables(), existing, |NewTables()|)
  }

  /** Migration 4: the permission columns absent from `user_permissions`, when it exists. */
  function AddedPermissionColumns(s: Schema): seq<string> {
    if UserPermissions in s.tables
    then MissingUpTo(PermissionColumns, ColumnsOf(s, UserPermissions), |PermissionColumns|)
    else []
  }

  /** SQLite refuses `ADD COLUMN ... DEFAULT CURRENT_TIMESTAMP` on a table
      that holds rows ("Cannot add a column with non-constant default"), so
      migration 4 fails at `last_used` when `user_permissions` has rows and
      lacks that column. */
  predicate LastUsedRefused(s: Schema) {
    UserPermissions in s.tables && "last_used" !in ColumnsOf(s, UserPermissions)
    && UserPermissions in s.populated
  }

  datatype Outcome = Migrated(schema: Schema, log: seq<LogLine>) | Failed(schema: Schema)

  /** One "Created index" line per index statement. */
  function IndexLog(): seq<LogLine> {
    [IndexCreated, IndexCreated, IndexCreated]
  }

  /** The schema after migrations 1 to 3 on `s`, migration 2 having passed. */
  function AfterTables(s: Schema): Schema {
    var s1 := AfterColumns(s);
    s1.(indexes := IndexesUpTo(s1, |Indexes()|).indexes, tables := s1.tables + Elems(CreatedTables(s.tables)))
  }

  /** The whole run on a schema: the new schema and the applied-migrations
      list, or the schema as the failing statement left it: a failing index
      statement, or the `last_used` column after `permissions` was added. */
  function MigrateSchema(s: Schema): Outcome {
    var s1 := AfterColumns(s);
    var run := IndexesUpTo(s1, |Indexes()|);
    if !run.ok then Failed(s1.(indexes := run.indexes))
    else
      var s3 := AfterTables(s);
      if LastUsedRefused(s) then
        Failed(ColumnsUpTo(s3, UserPermissions, PermissionColumns, ColumnsOf(s, UserPermissions), 1))
      else
      var s4 := if UserPermissions in s.tables
                then ColumnsUpTo(s3, UserPermissions, PermissionColumns, ColumnsOf(s, UserPermissions), |PermissionColumns|)
                else s3;
      Migrated(s4, Messages(AddedColumns(s), ColumnAdded) + IndexLog()
                   + Messages(CreatedTables(s.tables), TableCreated)
                   + Messages(AddedPermissionColumns(s), PermissionAdded))
  }

  // ------------------------------------------------------------ properties

  /** Migration 1 gives `user_locations` every new column, adding exactly the
      missing ones in list order, and touches no other table. */
  lemma ColumnMigration(s: Schema)
    requires UserLocations in s.tables
    ensures ColumnsOf(AfterColumns(s), UserLocations) == ColumnsOf(s, UserLocations) + Elems(ColumnNames())
    ensures Subsequence(AddedColumns(s), ColumnNames())
    ensures forall x :: x in AddedColumns(s) <==> x in ColumnNames() && x !in ColumnsOf(s, UserLocations)
    ensures forall t :: t != UserLocations ==> ColumnsOf(AfterColumns(s), t) == ColumnsOf(s, t)
    ensures AfterColumns(s).tables == s.tables && AfterColumns(s).indexes == s.indexes
  {
    var existing := ColumnsOf(s, UserLocations);
    ColumnsUpToFacts(s, UserLocations, ColumnNames(), existing, |NewColumns|);
    MissingInOrder(ColumnNames(), existing);
  }

  /** Migration 1 changes nothing when `user_locations` is absent. */
  lemma NoColumnsWithoutTable(s: Schema)
    requires UserLocations !in s.tables
    ensures AfterColumns(s) == s && AddedColumns(s) == []
  {
  }

  /** A failed index statement ends migration 2: later ones are not run. */
  lemma {:induction false} FailureSticks(s: Schema, j: nat, k: nat)
    requires j <= k <= |Indexes()| && !IndexesUpTo(s, j).ok
    ensures IndexesUpTo(s, k) == IndexesUpTo(s, j)
  {
    if j < k {
      FailureSticks(s, j, k - 1);
    }
  }

  /** Migration 2 only adds indexes and, when it passes, every index exists. */
  lemma {:induction false} IndexesUpToFacts(s: Schema, k: nat)
    requires k <= |Indexes()|
    ensures IndexesUpTo(s, k).indexes >= s.indexes
    ensures forall n :: n in IndexesUpTo(s, k).indexes && n !in s.indexes ==> 
              exists i :: 0 <= i < k && Indexes()[i].name == n
    ensures IndexesUpTo(s, k).ok ==> forall i :: 0 <= i < k ==> Indexes()[i].name in IndexesUpTo(s, k).indexes
  {
    if k > 0 {
      IndexesUpToFacts(s, k - 1);
    }
  }

  /** Migration 2 passes when every index statement can run. */
  lemma {:induction false} CreatableIndexesPass(s: Schema, k: nat)
    requires k <= |Indexes()| && forall i :: 0 <= i < k ==> Creatable(s, Indexes()[i])
    ensures IndexesUpTo(s, k).ok
  {
    if k > 0 {
      CreatableIndexesPass(s, k - 1);
    }
  }

  /** Migration 2 is a no-op once every index exists. */
  lemma {:induction false} ExistingIndexesSkipped(s: Schema, k: nat)
    requires k <= |Indexes()| && UserLocations in s.tables
    requires forall i :: 0 <= i < |Indexes()| ==> Indexes()[i].name in s.indexes
    ensures IndexesUpTo(s, k) == IndexRun(true, s.indexes)
  {
    if k > 0 {
      ExistingIndexesSkipped(s, k - 1);
    }
  }

  /** With a `user_locations` table that has the indexed columns `user_id`,
      `timestamp`, `lat` and `lng` (`store_category` is supplied by
      migration 1), the run succeeds exactly when the `last_used` statement
      is not refused. */
  lemma IndexableTableSucceeds(s: Schema)
    requires UserLocations in s.tables
    requires "user_id" in ColumnsOf(s, UserLocations) && "timestamp" in ColumnsOf(s, UserLocations)
    requires "lat" in ColumnsOf(s, UserLocations) && "lng" in ColumnsOf(s, UserLocations)
    ensures MigrateSchema(s).Migrated? <==> !LastUsedRefused(s)
  {
    var s1 := AfterColumns(s);
    ColumnMigration(s);
    assert ColumnNames()[1] == "store_category";
    assert "store_category" in ColumnsOf(s1, UserLocations);
    var defs := Indexes();
    assert Creatable(s1, defs[0]) && Creatable(s1, defs[1]) && Creatable(s1, defs[2]);
    CreatableIndexesPass(s1, |Indexes()|);
  }

  /** Without `user_locations` the first index statement fails, whatever
      indexes exist, and the schema is left as it was. */
  lemma MissingTableFails(s: Schema)
    requires UserLocations !in s.tables
    ensures MigrateSchema(s) == Failed(s)
  {
    assert !IndexesUpTo(s, 1).ok;
    FailureSticks(s, 1, |Indexes()|);
  }

  /** A run fails exactly when an index statement fails or the `last_used`
      statement is refused. */
  lemma FailureCauses(s: Schema)
    ensures MigrateSchema(s).Failed?
            <==> !IndexesUpTo(AfterColumns(s), |Indexes()|).ok || LastUsedRefused(s)
  {
  }

  /** Migrations 1 to 3 leave `user_permissions` and the populated tables alone. */
  lemma AfterTablesFrame(s: Schema)
    ensures ColumnsOf(AfterTables(s), UserPermissions) == ColumnsOf(s, UserPermissions)
    ensures AfterTables(s).populated == s.populated
    ensures AfterColumns(s).populated == s.populated
    ensures AfterColumns(s).tables == s.tables
    ensures (UserPermissions in AfterTables(s).tables) == (UserPermissions in s.tables)
  {
    NamesDiffer();
    MissingInOrder(NewTables(), s.tables);
    if UserLocations in s.tables {
      ColumnsUpToFacts(s, UserLocations, ColumnNames(), ColumnsOf(s, UserLocations), |NewColumns|);
    }
  }

  /** After a failing index statement no table is created and only
      `user_locations` has new columns. */
  lemma IndexFailureKeepsTables(s: Schema)
    requires !IndexesUpTo(AfterColumns(s), |Indexes()|).ok
    ensures MigrateSchema(s).schema.tables == s.tables
    ensures forall t :: t != UserLocations ==> ColumnsOf(MigrateSchema(s).schema, t) == ColumnsOf(s, t)
    ensures MigrateSchema(s).schema.populated == s.populated
  {
    AfterTablesFrame(s);
    if UserLocations in s.tables {
      ColumnMigration(s);
    }
  }

  /** After the refused `last_used` statement every new table and index
      exists and `user_permissions` has gained `permissions` only. */
  lemma LastUsedFailureKeepsEarlier(s: Schema)
    requires IndexesUpTo(AfterColumns(s), |Indexes()|).ok && LastUsedRefused(s)
    ensures MigrateSchema(s).schema.tables == s.tables + Elems(NewTables())
    ensures ColumnsOf(MigrateSchema(s).schema, UserPermissions) == ColumnsOf(s, UserPermissions) + {"permissions"}
    ensures "last_used" !in ColumnsOf(MigrateSchema(s).schema, UserPermissions)
    ensures forall i :: 0 <= i < |Indexes()| ==> Indexes()[i].name in MigrateSchema(s).schema.indexes
    ensures MigrateSchema(s).schema.populated == s.populated
  {
    var s1 := AfterColumns(s);
    var s3 := AfterTables(s);
    TableMigration(s);
    AfterTablesFrame(s);
    IndexesUpToFacts(s1, |Indexes()|);
    ColumnsStep(s3, UserPermissions, PermissionColumns, ColumnsOf(s, UserPermissions), 0);
    assert PermissionColumns[0] == "permissions";
  }

  /** What a failed run leaves behind, the statements before the failing one
      having taken effect: after a failing index statement no table is
      created and only `user_locations` has new columns; after the refused
      `last_used` statement every new table and index exists and
      `user_permissions` has gained `permissions` but not `last_used`. */
  lemma FailureKeepsTables(s: Schema)
    requires MigrateSchema(s).Failed?
    ensures !IndexesUpTo(AfterColumns(s), |Indexes()|).ok ==>
              MigrateSchema(s).schema.tables == s.tables
              && forall t :: t != UserLocations ==> ColumnsOf(MigrateSchema(s).schema, t) == ColumnsOf(s, t)
    ensures IndexesUpTo(AfterColumns(s), |Indexes()|).ok ==>
              MigrateSchema(s).schema.tables == s.tables + Elems(NewTables())
              && ColumnsOf(MigrateSchema(s).schema, UserPermissions) == ColumnsOf(s, UserPermissions) + {"permissions"}
              && "last_used" !in ColumnsOf(MigrateSchema(s).schema, UserPermissions)
              && forall i :: 0 <= i < |Indexes()| ==> Indexes()[i].name in MigrateSchema(s).schema.indexes
    ensures MigrateSchema(s).schema.populated == s.populated
  {
    if IndexesUpTo(AfterColumns(s), |Indexes()|).ok {
      LastUsedFailureKeepsEarlier(s);
    } else {
      IndexFailureKeepsTables(s);
    }
  }

  /** Three "Created index" lines are always logged on success, so the list is
      never empty and "No migrations needed" is never printed. */
  lemma LogNeverEmpty(s: Schema)
    requires MigrateSchema(s).Migrated?
    ensures |MigrateSchema(s).log| >= 3 && IndexCreated in MigrateSchema(s).log
  {
    var log := MigrateSchema(s).log;
    var a := Messages(AddedColumns(s), ColumnAdded);
    assert log[|a|] == IndexCreated;
  }

  /** The table names involved differ (by length). */
  lemma NamesDiffer()
    ensures UserLocations != UserPermissions
    ensures UserLocations !in NewTables() && UserPermissions !in NewTables()
  {
    assert |UserLocations| == 14 && |UserPermissions| == 16;
    var t := NewTables();
    assert |t[0]| == 18 && |t[1]| == 15 && |t[2]| == 17 && |t[3]| == 20 && |t[4]| == 11;
  }

  /** Adding the missing ones of `names` to `table` leaves it with all of them. */
  lemma AddsAllColumns(s: Schema, table: string, names: seq<string>)
    ensures ColumnsOf(ColumnsUpTo(s, table, names, ColumnsOf(s, table), |names|), table)
            == ColumnsOf(s, table) + Elems(names)
    ensures forall t :: t != table ==> ColumnsOf(ColumnsUpTo(s, table, names, ColumnsOf(s, table), |names|), t) == ColumnsOf(s, t)
    ensures ColumnsUpTo(s, table, names, ColumnsOf(s, table), |names|).tables == s.tables
    ensures ColumnsUpTo(s, table, names, ColumnsOf(s, table), |names|).indexes == s.indexes
  {
    ColumnsUpToFacts(s, table, names, ColumnsOf(s, table), |names|);
    MissingInOrder(names, ColumnsOf(s, table));
  }

  /** Migration 3 creates exactly the absent new tables, in order, and leaves
      the columns alone. */
  lemma TableMigration(s: Schema)
    ensures AfterTables(s).tables == AfterColumns(s).tables + Elems(NewTables())
    ensures AfterTables(s).columns == AfterColumns(s).columns
    ensures Subsequence(CreatedTables(s.tables), NewTables())
    ensures forall x :: x in CreatedTables(s.tables) <==> x in NewTables() && x !in s.tables
  {
    MissingInOrder(NewTables(), s.tables);
    if UserLocations in s.tables {
      ColumnMigration(s);
    }
  }

  /** The schema a successful run ends with. */
  lemma SuccessfulRun(s: Schema)
    requires MigrateSchema(s).Migrated?
    ensures MigrateSchema(s).schema.tables == s.tables + Elems(NewTables())
    ensures UserPermissions in s.tables ==>
              ColumnsOf(MigrateSchema(s).schema, UserPermissions)
              == ColumnsOf(s, UserPermissions) + Elems(PermissionColumns)
    ensures ColumnsOf(MigrateSchema(s).schema, UserLocations) == ColumnsOf(AfterColumns(s), UserLocations)
    ensures forall i :: 0 <= i < |Indexes()| ==> Indexes()[i].name in MigrateSchema(s).schema.indexes
  {
    NamesDiffer();
    var s1 := AfterColumns(s);
    var s3 := AfterTables(s);
    TableMigration(s);
    if UserLocations in s.tables {
      ColumnMigration(s);
    }
    IndexesUpToFacts(s1, |Indexes()|);
    assert ColumnsOf(s3, UserPermissions) == ColumnsOf(s, UserPermissions);
    AddsAllColumns(s3, UserPermissions, PermissionColumns);
  }

  /** Migration 1 changes nothing when every new column is already there. */
  lemma {:induction false} ColumnsPresentUnchanged(s: Schema, table: string, names: seq<string>, existing: set<string>, k: nat)
    requires k <= |names| && forall x :: x in names ==> x in existing
    ensures ColumnsUpTo(s, table, names, existing, k) == s
  {
    if k > 0 {
      ColumnsPresentUnchanged(s, table, names, existing, k - 1);
      assert names[k - 1] in existing;
    }
  }

  /** A schema that already has every new column needs no migration 1. */
  lemma RerunFindsColumns(t: Schema)
    requires UserLocations in t.tables ==> forall x :: x in ColumnNames() ==> x in ColumnsOf(t, UserLocations)
    ensures AfterColumns(t) == t && AddedColumns(t) == []
  {
    if UserLocations in t.tables {
      var present := ColumnsOf(t, UserLocations);
      ColumnsPresentUnchanged(t, UserLocations, ColumnNames(), present, |NewColumns|);
      NothingMissing(ColumnNames(), present, |NewColumns|);
    }
  }

  /** A schema with every index and every new table needs no migration 2 or 3. */
  lemma RerunFindsTables(t: Schema)
    requires UserLocations in t.tables
    requires forall i :: 0 <= i < |Indexes()| ==> Indexes()[i].name in t.indexes
    requires forall x :: x in NewTables() ==> x in t.tables
    requires AfterColumns(t) == t
    ensures IndexesUpTo(t, |Indexes()|) == IndexRun(true, t.indexes)
    ensures CreatedTables(t.tables) == [] && AfterTables(t) == t
  {
    ExistingIndexesSkipped(t, |Indexes()|);
    NothingMissing(NewTables(), t.tables, |NewTables()|);
    assert Elems(CreatedTables(t.tables)) == {};
  }

  /** A schema whose `user_permissions` has both columns needs no migration 4. */
  lemma RerunFindsPermissions(t: Schema)
    requires UserPermissions in t.tables ==> forall x :: x in PermissionColumns ==> x in ColumnsOf(t, UserPermissions)
    ensures AddedPermissionColumns(t) == []
    ensures UserPermissions in t.tables ==>
              ColumnsUpTo(t, UserPermissions, PermissionColumns, ColumnsOf(t, UserPermissions), |PermissionColumns|) == t
  {
    if UserPermissions in t.tables {
      var present := ColumnsOf(t, UserPermissions);
      ColumnsPresentUnchanged(t, UserPermissions, PermissionColumns, present, |PermissionColumns|);
      NothingMissing(PermissionColumns, present, |PermissionColumns|);
    }
  }

  /** A schema that has every new column, index, table and permission
      column is left as it is, with only the three index lines logged. */
  lemma CompleteSchemaUnchanged(t: Schema)
    requires UserLocations in t.tables
    requires forall x :: x in ColumnNames() ==> x in ColumnsOf(t, UserLocations)
    requires forall i :: 0 <= i < |Indexes()| ==> Indexes()[i].name in t.indexes
    requires forall x :: x in NewTables() ==> x in t.tables
    requires UserPermissions in t.tables ==> forall x :: x in PermissionColumns ==> x in ColumnsOf(t, UserPermissions)
    ensures MigrateSchema(t) == Migrated(t, IndexLog())
  {
    RerunFindsColumns(t);
    RerunFindsTables(t);
    RerunFindsPermissions(t);
  }

  /** A successful run leaves a complete schema. */
  lemma MigratedIsComplete(s: Schema)
    requires MigrateSchema(s).Migrated?
    ensures var t := MigrateSchema(s).schema;
      && UserLocations in t.tables
      && (forall x :: x in ColumnNames() ==> x in ColumnsOf(t, UserLocations))
      && (forall i :: 0 <= i < |Indexes()| ==> Indexes()[i].name in t.indexes)
      && (forall x :: x in NewTables() ==> x in t.tables)
      && (UserPermissions in t.tables ==> forall x :: x in PermissionColumns ==> x in ColumnsOf(t, UserPermissions))
  {
    if UserLocations !in s.tables {
      MissingTableFails(s);
    }
    NamesDiffer();
    SuccessfulRun(s);
    ColumnMigration(s);
  }

  /** Running the migration again on the schema a successful run produced
      changes nothing and logs only the three index lines. */
  lemma Idempotent(s: Schema)
    requires MigrateSchema(s).Migrated?
    ensures MigrateSchema(MigrateSchema(s).schema) == Migrated(MigrateSchema(s).schema, IndexLog())
  {
    MigratedIsComplete(s);
    CompleteSchemaUnchanged(MigrateSchema(s).schema);
  }

  // ------------------------------------------------------------ the run

  /** An open SQLite database, as far as the migration sees it. */
  class Database {
    var tables: set<string>
    var columns: map<string, set<string>>
    var indexes: set<string>
    var populated: set<string>

    constructor (s: Schema)
      ensures Snapshot() == s
    {
      tables, columns, indexes, populated := s.tables, s.columns, s.indexes, s.populated;
    }

    function Snapshot(): Schema
      reads this
    {
      Schema(tables, columns, indexes, populated)
    }

    /** Add those of `names` that `table` lacks, one `ALTER TABLE` and one
        log line each, checking against the columns it had at the start. */
    method AddMissingColumns(table: string, names: seq<string>, kind: LogKind)
      returns (migrations: seq<LogLine>)
      modifies this
      ensures Snapshot() == ColumnsUpTo(old(Snapshot()), table, names, ColumnsOf(old(Snapshot()), table), |names|)
      ensures migrations == Messages(MissingUpTo(names, ColumnsOf(old(Snapshot()), table), |names|), kind)
    {
      ghost var s := Snapshot();
      var existingColumns := ColumnsOf(Snapshot(), table);
      migrations := [];
      for i := 0 to |names|
        invariant Snapshot() == ColumnsUpTo(s, table, names, existingColumns, i)
        invariant migrations == Messages(MissingUpTo(names, existingColumns, i), kind)
      {
        ColumnsStep(s, table, names, existingColumns, i);
        MissingStep(names, existingColumns, i);
        MessagesSnoc(MissingUpTo(names, existingColumns, i), kind, names[i]);
        var added := AddColumnUnless(table, names[i], existingColumns, kind);
        migrations := migrations + added;
      }
    }

    /** One `ALTER TABLE table ADD COLUMN name`, skipped when `existing` has the name. */
    method AddColumnUnless(table: string, name: string, existing: set<string>, kind: LogKind) returns (line: seq<LogLine>)
      modifies this
      ensures Snapshot() == if name in existing then old(Snapshot()) else AddColumn(old(Snapshot()), table, name)
      ensures line == if name in existing then [] else [Line(kind, name)]
    {
      line := [];
      if name !in existing {
        columns := columns[table := ColumnsOf(Snapshot(), table) + {name}];
        line := [Line(kind, name)];
      }
    }

    /** Migration 1: add the missing new columns to `user_locations`. */
    method AddNewColumns(existingTables: set<string>) returns (migrations: seq<LogLine>)
      requires existingTables == tables
      modifies this
      ensures Snapshot() == AfterColumns(old(Snapshot()))
      ensures migrations == Messages(AddedColumns(old(Snapshot())), ColumnAdded)
    {
      migrations := [];
      if UserLocations in existingTables {
        var names := seq(|NewColumns|, i requires 0 <= i < |NewColumns| => NewColumns[i].0);
        assert names == ColumnNames();
        migrations := AddMissingColumns(UserLocations, names, ColumnAdded);
      }
    }

    /** Migration 2: run the three index statements; false when one fails. */
    method CreateIndexes() returns (ok: bool)
      modifies this
      ensures ok == IndexesUpTo(old(Snapshot()), |Indexes()|).ok
      ensures Snapshot() == old(Snapshot()).(indexes := IndexesUpTo(old(Snapshot()), |Indexes()|).indexes)
    {
      ghost var s := Snapshot();
      var j := 0;
      while j < |Indexes()|
        invariant 0 <= j <= |Indexes()|
        invariant IndexesUpTo(s, j).ok
        invariant Snapshot() == s.(indexes := IndexesUpTo(s, j).indexes)
      {
        var d := Indexes()[j];
        if d.table !in tables {
          // "no such table": the statement raises; the later ones do not run.
          FailureSticks(s, j + 1, |Indexes()|);
          return false;
        }
        if d.name !in indexes {
          if !Creatable(Snapshot(), d) {
            // The statement raises; the later ones do not run.
            FailureSticks(s, j + 1, |Indexes()|);
            return false;
          }
          indexes := indexes + {d.name};
        }
        j := j + 1;
      }
      ok := true;
    }

    /** Create those of `names` absent from the snapshot `existingTables`,
        one log line each. */
    method CreateMissingTables(names: seq<string>, existingTables: set<string>) returns (migrations: seq<LogLine>)
      modifies this
      ensures Snapshot() == old(Snapshot()).(tables := old(tables) + Elems(MissingUpTo(names, existingTables, |names|)))
      ensures migrations == Messages(MissingUpTo(names, existingTables, |names|), TableCreated)
    {
      ghost var s := Snapshot();
      migrations := [];
      var k := 0;
      while k < |names|
        invariant 0 <= k <= |names|
        invariant tables == s.tables + Elems(MissingUpTo(names, existingTables, k))
        invariant columns == s.columns && indexes == s.indexes && populated == s.populated
        invariant migrations == Messages(MissingUpTo(names, existingTables, k), TableCreated)
      {
        var name := names[k];
        ghost var m := MissingUpTo(names, existingTables, k);
        MessagesSnoc(m, TableCreated, name);
        ElemsSnoc(m, name);
        if name !in existingTables {
          tables := tables + {name};
          migrations := migrations + [Line(TableCreated, name)];
        }
        k := k + 1;
      }
    }

    /** Migration 4: add the missing permission columns to `user_permissions`;
        false when the `last_used` statement is refused, `permissions` having
        been added before it. */
    method UpdatePermissions(existingTables: set<string>) returns (ok: bool, migrations: seq<LogLine>)
      requires (UserPermissions in existingTables) == (UserPermissions in tables)
      modifies this
      ensures ok <==> !LastUsedRefused(old(Snapshot()))
      ensures UserPermissions in existingTables ==>
                Snapshot() == ColumnsUpTo(old(Snapshot()), UserPermissions, PermissionColumns,
                                          ColumnsOf(old(Snapshot()), UserPermissions), if ok then |PermissionColumns| else 1)
      ensures UserPermissions !in existingTables ==> Snapshot() == old(Snapshot())
      ensures ok ==> migrations == if UserPermissions in existingTables
                                   then Messages(MissingUpTo(PermissionColumns, ColumnsOf(old(Snapshot()), UserPermissions),
                                                             |PermissionColumns|), PermissionAdded)
                                   else []
    {
      ok := true;
      migrations := [];
      if UserPermissions in existingTables {
        ghost var s := Snapshot();
        ghost var names := PermissionColumns;
        var existingColumns := ColumnsOf(Snapshot(), UserPermissions);
        assert names[0] == "permissions" && names[1] == "last_used";
        if "permissions" !in existingColumns {
          columns := columns[UserPermissions := ColumnsOf(Snapshot(), UserPermissions) + {"permissions"}];
          migrations := migrations + [Line(PermissionAdded, "permissions")];
        }
        assert Snapshot() == ColumnsUpTo(s, UserPermissions, names, existingColumns, 1);
        assert migrations == Messages(MissingUpTo(names, existingColumns, 1), PermissionAdded);
        MessagesSnoc(MissingUpTo(names, existingColumns, 1), PermissionAdded, "last_used");
        if "last_used" !in existingColumns {
          if UserPermissions in populated {
            // "Cannot add a column with non-constant default": the statement raises.
            return false, migrations;
          }
          columns := columns[UserPermissions := ColumnsOf(Snapshot(), UserPermissions) + {"last_used"}];
          migrations := migrations + [Line(PermissionAdded, "last_used")];
        }
        assert Snapshot() == ColumnsUpTo(s, UserPermissions, names, existingColumns, 2);
      }
    }

    /** `migrate_database` once the database file exists: false when a
        statement fails (the caller exits), otherwise the applied migrations. */
    method MigrateDatabase() returns (ok: bool, migrations: seq<LogLine>)
      modifies this
      ensures ok <==> MigrateSchema(old(Snapshot())).Migrated?
      ensures Snapshot() == MigrateSchema(old(Snapshot())).schema
      ensures ok ==> migrations == MigrateSchema(old(Snapshot())).log
    {
      ghost var s := Snapshot();
      var existingTables := tables;
      migrations := AddNewColumns(existingTables);
      ok := CreateIndexes();
      if !ok {
        return;
      }
      migrations := migrations + IndexLog();
      var created := CreateMissingTables(NewTables(), existingTables);
      migrations := migrations + created;
      assert Snapshot() == AfterTables(s);
      AfterTablesFrame(s);
      var updated;
      ok, updated := UpdatePermissions(existingTables);
      migrations := migrations + updated;
    }
  }
}
