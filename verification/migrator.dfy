/**
 * The generic Migrator (migrator/migrator.go): the operations that turn
 * schema descriptors into statements and hand them to the database.
 *
 * The database is a log of executed statements plus the set of tables a
 * HasTable probe finds. Exec always succeeds, so the only errors are the
 * migrator's own: a name that resolves to no field, an index that cannot
 * be found, an unsupported view.
 */
module Migrator {
  import opened Wrappers
  import opened Strings
  import opened Clause
  import opened Schema
  import opened Reorder
  import opened Ddl
  import opened CreateTableSql

  datatype Error =
    | LookupFailed(name: string)   // "failed to look up field with name: ..."
    | IndexFailed(name: string)    // "failed to create index with name ..."
    | NotImplemented               // gorm.ErrNotImplemented

  /** What the migrator sees of the database: the statements executed, and the tables HasTable finds. */
  class Database {
    var log: seq<Stmt>
    const tables: set<string>

    constructor(tables: set<string>)
      ensures log == [] && this.tables == tables
    {
      log := [];
      this.tables := tables;
    }

    method Exec(st: Stmt)
      modifies this
      ensures log == old(log) + [st]
    {
      log := log + [st];
    }
  }

  // ---------------------------------------------------------------------
  // Column operations (migrator/migrator.go:218-251, 271-282)
  // ---------------------------------------------------------------------

  /** AddColumn, DropColumn, AlterColumn and RenameColumn, with the name each looks up. */
  datatype ColumnOp =
    | Add(field: string)
    | Drop(field: string)
    | Alter(field: string)
    | Rename(oldName: string, field: string)

  /**
   * The statement a column operation executes, or the error it returns
   * when its name resolves to no field.
   */
  function ColumnOpStmt(cfg: Config, s: Schema, op: ColumnOp): Result<Stmt, Error>
  {
    match LookUpField(s, op.field)
    case None => Err(LookupFailed(op.field))
    case Some(f) =>
      var table := TableValue(NamedTable(s.table));
      Ok(match op
         case Add(_) => Stmt("ALTER TABLE ? ADD ? ?", [table, ColumnValue(NamedColumn(f.dbName)), ExprValue(Expr(DataTypeOf(cfg, f)))])
         case Drop(_) => Stmt("ALTER TABLE ? DROP COLUMN ?", [table, ColumnValue(NamedColumn(f.dbName))])
         case Alter(_) => Stmt("ALTER TABLE ? ALTER COLUMN ? TYPE ?", [table, ColumnValue(NamedColumn(f.dbName)), ExprValue(Expr(DataTypeOf(cfg, f)))])
         case Rename(oldName, _) =>
           Stmt("ALTER TABLE ? RENAME COLUMN ? TO ?", [table, ColumnValue(NamedColumn(cfg.columnName(s.table, oldName))), ColumnValue(NamedColumn(f.dbName))]))
  }

  /**
   * The lookup guard: an operation fails, naming the name it was given,
   * exactly when that name is neither a column nor a field name; otherwise
   * its statement addresses the table, binds the resolved field's column
   * and has one marker per value.
   */
  lemma ColumnOpGuard(cfg: Config, s: Schema, op: ColumnOp)
    ensures ColumnOpStmt(cfg, s, op).Err? <==> op.field !in s.fieldsByDBName && op.field !in s.fieldsByName
    ensures ColumnOpStmt(cfg, s, op).Err? ==> ColumnOpStmt(cfg, s, op).error == LookupFailed(op.field)
    ensures ColumnOpStmt(cfg, s, op).Ok? ==>
              var st := ColumnOpStmt(cfg, s, op).value;
              var f := LookUpField(s, op.field).value;
              && Balanced(st)
              && |st.values| >= 2
              && st.values[0] == TableValue(NamedTable(s.table))
              && (!op.Rename? ==> st.values[1] == ColumnValue(NamedColumn(f.dbName)))
              && (op.Rename? ==> st.values[1] == ColumnValue(NamedColumn(cfg.columnName(s.table, op.oldName)))
                                 && st.values[2] == ColumnValue(NamedColumn(f.dbName)))
              && (op.Add? || op.Alter? ==> st.values[2] == ExprValue(Expr(DataTypeOf(cfg, f))))
  {
    if ColumnOpStmt(cfg, s, op).Ok? {
      ColumnTemplateMarkers();
    }
  }

  lemma ColumnTemplateMarkers()
    ensures Count('?', "ALTER TABLE ? ADD ? ?") == 3
    ensures Count('?', "ALTER TABLE ? DROP COLUMN ?") == 2
    ensures Count('?', "ALTER TABLE ? ALTER COLUMN ? TYPE ?") == 3
    ensures Count('?', "ALTER TABLE ? RENAME COLUMN ? TO ?") == 3
  {
    AddColumnMarkers();
    DropColumnMarkers();
    AlterColumnMarkers();
    RenameColumnMarkers();
  }

  lemma AddColumnMarkers()
    ensures Count('?', "ALTER TABLE ? ADD ? ?") == 3
  {
    assert "ALTER TABLE ? ADD ? ?" == "ALTER TABLE " + "?" + " ADD " + "?" + " " + "?" + "";
    ThreeMarkers("ALTER TABLE ", " ADD ", " ", "");
  }

  lemma DropColumnMarkers()
    ensures Count('?', "ALTER TABLE ? DROP COLUMN ?") == 2
  {
    assert "ALTER TABLE ? DROP COLUMN ?" == "ALTER TABLE " + "?" + " DROP COLUMN " + "?" + "";
    TwoMarkers("ALTER TABLE ", " DROP COLUMN ", "");
  }

  lemma AlterColumnMarkers()
    ensures Count('?', "ALTER TABLE ? ALTER COLUMN ? TYPE ?") == 3
  {
    assert "ALTER TABLE ? ALTER COLUMN ? TYPE ?" == "ALTER TABLE " + "?" + " ALTER COLUMN " + "?" + " TYPE " + "?" + "";
    ThreeMarkers("ALTER TABLE ", " ALTER COLUMN ", " TYPE ", "");
  }

  lemma RenameColumnMarkers()
    ensures Count('?', "ALTER TABLE ? RENAME COLUMN ? TO ?") == 3
  {
    assert "ALTER TABLE ? RENAME COLUMN ? TO ?" == "ALTER TABLE " + "?" + " RENAME COLUMN " + "?" + " TO " + "?" + "";
    ThreeMarkers("ALTER TABLE ", " RENAME COLUMN ", " TO ", "");
  }

  /** The statements an index creation executes, or its error (migrator/migrator.go:410-448). */
  function CreateIndexPlan(d: Dialector, s: Schema, name: string): (r: Result<seq<Stmt>, Error>)
  {
    match FindIndex(s.indexes, name)
    case Some(idx) => Ok([IndexStmt(d, s.table, idx)])
    case None =>
      match LookUpField(s, name)
      case None => Err(IndexFailed(name))
      case Some(f) =>
        var sts := FieldIndexStmts(d, s, f, s.indexes);
        if sts == [] then Err(IndexFailed(name)) else Ok(sts)
  }

  /** What CreateIndex(value, name) executes when name names an index: that index's statement. */
  function NamedIndexStmts(d: Dialector, s: Schema, name: string): seq<Stmt>
  {
    match FindIndex(s.indexes, name)
    case Some(idx) => [IndexStmt(d, s.table, idx)]
    case None => []
  }

  /** For each index in turn, one creation of it per option on the field. */
  function FieldIndexStmts(d: Dialector, s: Schema, f: Field, idxs: seq<Index>): seq<Stmt>
  {
    if idxs == [] then []
    else
      var last := idxs[|idxs| - 1];
      FieldIndexStmts(d, s, f, idxs[..|idxs| - 1]) + OptionIndexStmts(d, s, f, last.name, last.fields)
  }

  function OptionIndexStmts(d: Dialector, s: Schema, f: Field, name: string, opts: seq<IndexOption>): seq<Stmt>
  {
    if opts == [] then []
    else
      OptionIndexStmts(d, s, f, name, opts[..|opts| - 1])
        + (if opts[|opts| - 1].field == f then NamedIndexStmts(d, s, name) else [])
  }

  /** The number of options, over the given indexes, that are on the field. */
  function Uses(f: Field, idxs: seq<Index>): nat
  {
    if idxs == [] then 0 else Uses(f, idxs[..|idxs| - 1]) + OptionUses(f, idxs[|idxs| - 1].fields)
  }

  function OptionUses(f: Field, opts: seq<IndexOption>): nat
  {
    if opts == [] then 0 else OptionUses(f, opts[..|opts| - 1]) + (if opts[|opts| - 1].field == f then 1 else 0)
  }

  /** Every statement an index creation issues creates one of the schema's indexes on its table. */
  predicate CreatesIndexes(d: Dialector, s: Schema, sts: seq<Stmt>)
  {
    forall st :: st in sts ==> exists idx :: idx in s.indexes && st == IndexStmt(d, s.table, idx)
  }

  lemma NamedIndexStmtsShape(d: Dialector, s: Schema, name: string)
    ensures CreatesIndexes(d, s, NamedIndexStmts(d, s, name))
    ensures |NamedIndexStmts(d, s, name)| == (if FindIndex(s.indexes, name).Some? then 1 else 0)
  {
  }

  lemma {:induction false} OptionIndexStmtsShape(d: Dialector, s: Schema, f: Field, name: string, opts: seq<IndexOption>)
    requires FindIndex(s.indexes, name).Some?
    ensures CreatesIndexes(d, s, OptionIndexStmts(d, s, f, name, opts))
    ensures |OptionIndexStmts(d, s, f, name, opts)| == OptionUses(f, opts)
  {
    if opts != [] {
      OptionIndexStmtsShape(d, s, f, name, opts[..|opts| - 1]);
      NamedIndexStmtsShape(d, s, name);
    }
  }

  lemma {:induction false} FieldIndexStmtsShape(d: Dialector, s: Schema, f: Field, idxs: seq<Index>)
    requires forall i :: 0 <= i < |idxs| ==> idxs[i] in s.indexes
    ensures CreatesIndexes(d, s, FieldIndexStmts(d, s, f, idxs))
    ensures |FieldIndexStmts(d, s, f, idxs)| == Uses(f, idxs)
  {
    if idxs != [] {
      var last := idxs[|idxs| - 1];
      FieldIndexStmtsShape(d, s, f, idxs[..|idxs| - 1]);
      IndexFoundByName(s, last);
      OptionIndexStmtsShape(d, s, f, last.name, last.fields);
    }
  }

  /**
   * CreateIndex succeeds exactly when the name names an index, issuing
   * that index's statement alone, or resolves to a field that some index
   * option is on, issuing one statement per such option; every statement
   * creates one of the schema's indexes, and a failure names the name.
   */
  lemma CreateIndexOutcome(d: Dialector, s: Schema, name: string)
    ensures CreateIndexPlan(d, s, name).Ok? <==>
              FindIndex(s.indexes, name).Some? || (LookUpField(s, name).Some? && Uses(LookUpField(s, name).value, s.indexes) > 0)
    ensures FindIndex(s.indexes, name).Some? ==>
              CreateIndexPlan(d, s, name) == Ok([IndexStmt(d, s.table, FindIndex(s.indexes, name).value)])
    ensures FindIndex(s.indexes, name).None? && CreateIndexPlan(d, s, name).Ok? ==>
              |CreateIndexPlan(d, s, name).value| == Uses(LookUpField(s, name).value, s.indexes)
    ensures CreateIndexPlan(d, s, name).Ok? ==> CreatesIndexes(d, s, CreateIndexPlan(d, s, name).value)
    ensures CreateIndexPlan(d, s, name).Err? ==> CreateIndexPlan(d, s, name).error == IndexFailed(name)
  {
    if FindIndex(s.indexes, name).None? && LookUpField(s, name).Some? {
      FieldIndexStmtsShape(d, s, LookUpField(s, name).value, s.indexes);
    }
  }

  // ---------------------------------------------------------------------
  // DropTable (migrator/migrator.go:188-202)
  // ---------------------------------------------------------------------

  function DropStmt(table: string): Stmt
  {
    Stmt("DROP TABLE ?", [TableValue(NamedTable(table))])
  }

  /** The tables dropped, walking the reordered models from the back and skipping the absent ones. */
  function DroppedTables(order: seq<Schema>, tables: set<string>): seq<string>
  {
    if order == [] then []
    else DroppedTables(order[1..], tables) + (if order[0].table in tables then [order[0].table] else [])
  }

  function DropLog(dropped: seq<string>): (log: seq<Stmt>)
    ensures |log| == |dropped| && forall i :: 0 <= i < |dropped| ==> log[i] == DropStmt(dropped[i])
  {
    seq(|dropped|, i requires 0 <= i < |dropped| => DropStmt(dropped[i]))
  }

  lemma {:induction false} DroppedMembers(order: seq<Schema>, tables: set<string>)
    ensures forall t :: t in DroppedTables(order, tables) <==> t in tables && t in TablesOf(order)
  {
    if order != [] {
      DroppedMembers(order[1..], tables);
      assert TablesOf(order) == [order[0].table] + TablesOf(order[1..]);
    }
  }

  lemma {:induction false} DroppedOnce(order: seq<Schema>, tables: set<string>)
    requires Distinct(TablesOf(order))
    ensures Distinct(DroppedTables(order, tables))
  {
    if order != [] {
      assert TablesOf(order) == [order[0].table] + TablesOf(order[1..]);
      assert forall k :: 0 <= k < |order| - 1 ==> TablesOf(order[1..])[k] == TablesOf(order)[k + 1];
      DroppedOnce(order[1..], tables);
      DroppedMembers(order[1..], tables);
      assert order[0].table !in TablesOf(order[1..]);
    }
  }

  /** Of two models both present, the later one in the order is dropped first. */
  lemma {:induction false} DroppedReversed(order: seq<Schema>, tables: set<string>, i: nat, j: nat)
    requires i < j < |order|
    requires order[i].table in tables && order[j].table in tables
    ensures exists p, q :: 0 <= p < q < |DroppedTables(order, tables)|
              && DroppedTables(order, tables)[p] == order[j].table && DroppedTables(order, tables)[q] == order[i].table
  {
    var rest := DroppedTables(order[1..], tables);
    if i == 0 {
      DroppedMembers(order[1..], tables);
      assert order[1..][j - 1] == order[j];
      assert order[j].table in TablesOf(order[1..]);
      var p :| 0 <= p < |rest| && rest[p] == order[j].table;
      assert DroppedTables(order, tables) == rest + [order[0].table];
      assert DroppedTables(order, tables)[p] == order[j].table;
      assert DroppedTables(order, tables)[|rest|] == order[0].table;
    } else {
      DroppedReversed(order[1..], tables, i - 1, j - 1);
      var p, q :| 0 <= p < q < |rest| && rest[p] == order[j].table && rest[q] == order[i].table;
      assert DroppedTables(order, tables)[p] == rest[p] && DroppedTables(order, tables)[q] == rest[q];
    }
  }

  /**
   * DropTable drops, once each, exactly the supplied tables the database
   * has, and a table that references another supplied table is dropped
   * before the table it references.
   */
  lemma DropTableOrder(values: seq<Schema>, order: seq<Schema>, tables: set<string>)
    requires Reordered(values, false, map[], order)
    ensures forall t :: t in DroppedTables(order, tables) <==> t in tables && t in Registered(values)
    ensures Distinct(DroppedTables(order, tables))
    ensures forall j, d :: 0 <= j < |order| && d in Depends(order[j]) && d in Registered(values)
                           && order[j].table in tables && d in tables ==>
              exists p, q :: 0 <= p < q < |DroppedTables(order, tables)|
                && DroppedTables(order, tables)[p] == order[j].table && DroppedTables(order, tables)[q] == d
  {
    DroppedMembers(order, tables);
    DroppedOnce(order, tables);
    forall t | t in tables && t in TablesOf(order)
      ensures t in Registered(values)
    {
      var k :| 0 <= k < |order| && order[k].table == t;
      assert order[k] in order;
    }
    forall j, d | 0 <= j < |order| && d in Depends(order[j]) && d in Registered(values)
                  && order[j].table in tables && d in tables
      ensures exists p, q :: 0 <= p < q < |DroppedTables(order, tables)|
                && DroppedTables(order, tables)[p] == order[j].table && DroppedTables(order, tables)[q] == d
    {
      assert d in TablesOf(order[..j]);
      var i :| 0 <= i < j && TablesOf(order[..j])[i] == d;
      assert order[i].table == d;
      DroppedReversed(order, tables, i, j);
    }
  }

  // ---------------------------------------------------------------------
  // CreateTable (migrator/migrator.go:102-186)
  // ---------------------------------------------------------------------

  /**
   * The statements CreateIndex(value, idx.Name) issues for each index in
   * turn, when indexes are created after the table.
   */
  function IndexesAfter(d: Dialector, s: Schema, idxs: seq<Index>): seq<Stmt>
  {
    if idxs == [] then [] else IndexesAfter(d, s, idxs[..|idxs| - 1]) + NamedIndexStmts(d, s, idxs[|idxs| - 1].name)
  }

  lemma IndexesAfterSnoc(d: Dialector, s: Schema, idxs: seq<Index>, i: nat)
    requires i < |idxs| && idxs[i] in s.indexes
    ensures FindIndex(s.indexes, idxs[i].name).Some?
    ensures IndexesAfter(d, s, idxs[..i + 1]) == IndexesAfter(d, s, idxs[..i]) + NamedIndexStmts(d, s, idxs[i].name)
  {
    assert idxs[..i + 1][..i] == idxs[..i];
    IndexFoundByName(s, idxs[i]);
  }

  function IndexLog(cfg: Config, s: Schema): seq<Stmt>
  {
    if cfg.createIndexAfterCreateTable then IndexesAfter(cfg.dialector, s, s.indexes) else []
  }

  /** The statements of one model, as the source issues them: its indexes, then its table. */
  function TableLogAsWritten(cfg: Config, s: Schema): seq<Stmt>
    requires WellFormed(s)
  {
    IndexLog(cfg, s) + [CreateTableStmt(cfg, s)]
  }

  /** The statements of one model, as the option's name promises: its table, then its indexes. */
  function TableLog(cfg: Config, s: Schema): seq<Stmt>
    requires WellFormed(s)
  {
    [CreateTableStmt(cfg, s)] + IndexLog(cfg, s)
  }

  /** One model's statements, in the order as written or in the corrected order. */
  function ModelLog(cfg: Config, s: Schema, asWritten: bool): seq<Stmt>
    requires WellFormed(s)
  {
    if asWritten then TableLogAsWritten(cfg, s) else TableLog(cfg, s)
  }

  /** The per-model logs of CreateTable, one for each reordered model. */
  function TableLogs(cfg: Config, order: seq<Schema>, asWritten: bool): (logs: seq<seq<Stmt>>)
    requires forall i :: 0 <= i < |order| ==> WellFormed(order[i])
    ensures |logs| == |order|
  {
    if order == [] then []
    else TableLogs(cfg, order[..|order| - 1], asWritten) + [ModelLog(cfg, order[|order| - 1], asWritten)]
  }

  lemma {:induction false} TableLogsAt(cfg: Config, order: seq<Schema>, asWritten: bool, k: nat)
    requires k < |order|
    requires forall i :: 0 <= i < |order| ==> WellFormed(order[i])
    ensures TableLogs(cfg, order, asWritten)[k] == ModelLog(cfg, order[k], asWritten)
  {
    if k < |order| - 1 {
      TableLogsAt(cfg, order[..|order| - 1], asWritten, k);
    }
  }

  /** A model's CREATE TABLE is the last of its statements as written, and the first corrected. */
  lemma TableLogsSome(cfg: Config, order: seq<Schema>, asWritten: bool, j: nat)
    requires j < |order|
    requires forall i :: 0 <= i < |order| ==> WellFormed(order[i])
    ensures TableLogs(cfg, order, asWritten)[j] != []
    ensures var log := TableLogs(cfg, order, asWritten)[j];
            log[if asWritten then |log| - 1 else 0] == CreateTableStmt(cfg, order[j])
  {
    TableLogsAt(cfg, order, asWritten, j);
  }

  /** The logs of a sequence of steps, one after the other. */
  function Flatten<T>(logs: seq<seq<T>>): seq<T>
  {
    if logs == [] then [] else Flatten(logs[..|logs| - 1]) + logs[|logs| - 1]
  }

  lemma {:induction false} FlattenAppend<T>(a: seq<seq<T>>, b: seq<seq<T>>)
    ensures Flatten(a + b) == Flatten(a) + Flatten(b)
  {
    if b == [] {
      assert a + b == a;
    } else {
      var init := b[..|b| - 1];
      var last := b[|b| - 1];
      assert (a + b)[..|a + b| - 1] == a + init;
      assert (a + b)[|a + b| - 1] == last;
      FlattenAppend(a, init);
      calc {
        Flatten(a + b);
        Flatten(a + init) + last;
        (Flatten(a) + Flatten(init)) + last;
        Flatten(a) + (Flatten(init) + last);
      }
    }
  }

  /** In a flattened log, step j's statements start at the length of the steps before it. */
  lemma FlattenAt<T>(logs: seq<seq<T>>, j: nat, p: nat, x: T)
    requires j < |logs| && p < |logs[j]| && logs[j][p] == x
    ensures |Flatten(logs[..j])| + p < |Flatten(logs)|
    ensures Flatten(logs)[|Flatten(logs[..j])| + p] == x
  {
    assert logs == logs[..j] + ([logs[j]] + logs[j + 1..]);
    FlattenAppend(logs[..j], [logs[j]] + logs[j + 1..]);
    FlattenAppend([logs[j]], logs[j + 1..]);
    assert Flatten([logs[j]]) == Flatten([logs[j]][..0]) + logs[j];
  }

  /** The first or the last statement of step j, located in the flattened log. */
  lemma FlattenBlockEnd<T>(logs: seq<seq<T>>, j: nat, last: bool, x: T)
    requires j < |logs| && logs[j] != []
    requires logs[j][if last then |logs[j]| - 1 else 0] == x
    ensures var t := if last then |Flatten(logs[..j + 1])| - 1 else |Flatten(logs[..j])|;
            |Flatten(logs[..j])| <= t < |Flatten(logs)| && Flatten(logs)[t] == x
  {
    FlattenSnoc(logs, j);
    FlattenAt(logs, j, if last then |logs[j]| - 1 else 0, x);
  }

  /** Step i's statements all come before those of a later step j. */
  lemma FlattenGrows<T>(logs: seq<seq<T>>, i: nat, j: nat)
    requires i < j <= |logs|
    ensures |Flatten(logs[..i])| + |logs[i]| <= |Flatten(logs[..j])|
  {
    assert logs[..j] == logs[..i] + logs[i..j];
    FlattenAppend(logs[..i], logs[i..j]);
    assert logs[i..j] == [logs[i]] + logs[i + 1..j];
    FlattenAppend([logs[i]], logs[i + 1..j]);
    assert Flatten([logs[i]]) == Flatten([logs[i]][..0]) + logs[i];
  }

  lemma TableLogsPointwise(cfg: Config, order: seq<Schema>, asWritten: bool)
    requires forall i :: 0 <= i < |order| ==> WellFormed(order[i])
    ensures forall k :: 0 <= k < |order| ==> TableLogs(cfg, order, asWritten)[k] == ModelLog(cfg, order[k], asWritten)
  {
    forall k | 0 <= k < |order|
      ensures TableLogs(cfg, order, asWritten)[k] == ModelLog(cfg, order[k], asWritten)
    {
      TableLogsAt(cfg, order, asWritten, k);
    }
  }

  lemma AppendStep<T>(base: seq<T>, mid: seq<T>, end: seq<T>, done: seq<T>, step: seq<T>)
    requires mid == base + done && end == mid + step
    ensures end == base + (done + step)
  {
  }

  lemma FlattenSnoc<T>(logs: seq<seq<T>>, i: nat)
    requires i < |logs|
    ensures Flatten(logs[..i + 1]) == Flatten(logs[..i]) + logs[i]
  {
    assert logs[..i + 1][..i] == logs[..i];
  }

  /** Everything CreateTable issues for the reordered models. */
  function CreateTablesLog(cfg: Config, order: seq<Schema>, asWritten: bool): seq<Stmt>
    requires forall i :: 0 <= i < |order| ==> WellFormed(order[i])
  {
    Flatten(TableLogs(cfg, order, asWritten))
  }

  lemma {:induction false} IndexesAfterShape(d: Dialector, s: Schema, idxs: seq<Index>)
    requires forall i :: 0 <= i < |idxs| ==> idxs[i] in s.indexes
    ensures |IndexesAfter(d, s, idxs)| == |idxs|
    ensures CreatesIndexes(d, s, IndexesAfter(d, s, idxs))
  {
    if idxs != [] {
      IndexesAfterShape(d, s, idxs[..|idxs| - 1]);
      IndexFoundByName(s, idxs[|idxs| - 1]);
      NamedIndexStmtsShape(d, s, idxs[|idxs| - 1].name);
    }
  }

  /**
   * As written, with indexes created after the table, a model with an
   * index has its CREATE INDEX statements issued first and its CREATE
   * TABLE statement last: the index is created on a table that does not
   * exist yet.
   */
  lemma IndexBeforeTable(cfg: Config, s: Schema)
    requires WellFormed(s)
    requires cfg.createIndexAfterCreateTable && s.indexes != []
    ensures |TableLogAsWritten(cfg, s)| == |s.indexes| + 1
    ensures TableLogAsWritten(cfg, s)[0] != CreateTableStmt(cfg, s)
    ensures TableLogAsWritten(cfg, s)[0] in IndexesAfter(cfg.dialector, s, s.indexes)
    ensures TableLogAsWritten(cfg, s)[|s.indexes|] == CreateTableStmt(cfg, s)
  {
    IndexesAfterShape(cfg.dialector, s, s.indexes);
    var first := TableLogAsWritten(cfg, s)[0];
    assert first in IndexesAfter(cfg.dialector, s, s.indexes);
    var idx :| idx in s.indexes && first == IndexStmt(cfg.dialector, s.table, idx);
    assert first.values[0].ColumnValue?;
    assert CreateTableStmt(cfg, s).values[0].TableValue?;
  }

  /**
   * Corrected, a model's CREATE TABLE statement comes first, followed,
   * when indexes are created after the table, by one CREATE INDEX per
   * index, each on that table; otherwise by nothing.
   */
  lemma TableBeforeIndexes(cfg: Config, s: Schema)
    requires WellFormed(s)
    ensures TableLog(cfg, s)[0] == CreateTableStmt(cfg, s)
    ensures |TableLog(cfg, s)| == 1 + (if cfg.createIndexAfterCreateTable then |s.indexes| else 0)
    ensures CreatesIndexes(cfg.dialector, s, TableLog(cfg, s)[1..])
  {
    IndexesAfterShape(cfg.dialector, s, s.indexes);
    assert TableLog(cfg, s)[1..] == IndexLog(cfg, s);
  }

  /** Where the statements of order[j] start in the log of the whole order. */
  function Offset(cfg: Config, order: seq<Schema>, asWritten: bool, j: nat): nat
    requires j <= |order|
    requires forall i :: 0 <= i < |order| ==> WellFormed(order[i])
  {
    |Flatten(TableLogs(cfg, order, asWritten)[..j])|
  }

  /**
   * Where the CREATE TABLE statement of order[j] sits in the log of the
   * whole order: last of its model's statements as written, first corrected.
   */
  function TableOffset(cfg: Config, order: seq<Schema>, asWritten: bool, j: nat): int
    requires j < |order|
    requires forall i :: 0 <= i < |order| ==> WellFormed(order[i])
  {
    if asWritten then Offset(cfg, order, asWritten, j + 1) - 1 else Offset(cfg, order, asWritten, j)
  }

  /**
   * Each model's CREATE TABLE sits within its own statements, and all the
   * statements of a model come before those of the models after it.
   */
  lemma OffsetsOrdered(cfg: Config, order: seq<Schema>, asWritten: bool)
    requires forall i :: 0 <= i < |order| ==> WellFormed(order[i])
    ensures forall j :: 0 <= j < |order| ==>
              Offset(cfg, order, asWritten, j) <= TableOffset(cfg, order, asWritten, j) < |CreateTablesLog(cfg, order, asWritten)|
              && CreateTablesLog(cfg, order, asWritten)[TableOffset(cfg, order, asWritten, j)] == CreateTableStmt(cfg, order[j])
    ensures forall i, j :: 0 <= i < j < |order| ==> TableOffset(cfg, order, asWritten, i) < Offset(cfg, order, asWritten, j)
  {
    forall j | 0 <= j < |order|
      ensures Offset(cfg, order, asWritten, j) <= TableOffset(cfg, order, asWritten, j) < |CreateTablesLog(cfg, order, asWritten)|
              && CreateTablesLog(cfg, order, asWritten)[TableOffset(cfg, order, asWritten, j)] == CreateTableStmt(cfg, order[j])
    {
      OffsetAt(cfg, order, asWritten, j);
    }
    forall i, j | 0 <= i < j < |order|
      ensures TableOffset(cfg, order, asWritten, i) < Offset(cfg, order, asWritten, j)
    {
      OffsetLess(cfg, order, asWritten, i, j);
    }
  }

  lemma OffsetAt(cfg: Config, order: seq<Schema>, asWritten: bool, j: nat)
    requires j < |order|
    requires forall i :: 0 <= i < |order| ==> WellFormed(order[i])
    ensures Offset(cfg, order, asWritten, j) <= TableOffset(cfg, order, asWritten, j) < |CreateTablesLog(cfg, order, asWritten)|
    ensures CreateTablesLog(cfg, order, asWritten)[TableOffset(cfg, order, asWritten, j)] == CreateTableStmt(cfg, order[j])
  {
    var logs := TableLogs(cfg, order, asWritten);
    TableLogsSome(cfg, order, asWritten, j);
    if asWritten {
      FlattenBlockEnd(logs, j, true, CreateTableStmt(cfg, order[j]));
      assert TableOffset(cfg, order, true, j) == |Flatten(logs[..j + 1])| - 1;
    } else {
      FlattenBlockEnd(logs, j, false, CreateTableStmt(cfg, order[j]));
      assert TableOffset(cfg, order, false, j) == |Flatten(logs[..j])|;
    }
  }

  lemma OffsetLess(cfg: Config, order: seq<Schema>, asWritten: bool, i: nat, j: nat)
    requires i < j < |order|
    requires forall k :: 0 <= k < |order| ==> WellFormed(order[k])
    ensures TableOffset(cfg, order, asWritten, i) < Offset(cfg, order, asWritten, j)
  {
    var logs := TableLogs(cfg, order, asWritten);
    TableLogsSome(cfg, order, asWritten, i);
    FlattenSnoc(logs, i);
    FlattenGrows(logs, i, j);
  }

  /**
   * CreateTable issues one CREATE TABLE per supplied table, and every
   * statement of a model comes after the CREATE TABLE of every supplied
   * table it depends on; in the order as written and in the corrected one.
   */
  lemma CreateTableOrder(cfg: Config, values: seq<Schema>, order: seq<Schema>, asWritten: bool)
    requires Reordered(values, false, map[], order)
    requires forall v :: v in values ==> WellFormed(v)
    ensures CreatedBefore(cfg, order, Registered(values), asWritten)
  {
    ReorderedModels(values, order);
    SuppliedDependenciesEarlier(values, order);
    CreatedBeforeDependents(cfg, order, Registered(values), asWritten);
  }

  lemma SuppliedDependenciesEarlier(values: seq<Schema>, order: seq<Schema>)
    requires Reordered(values, false, map[], order)
    ensures forall j, d :: 0 <= j < |order| && d in Depends(order[j]) && d in Registered(values) ==>
              exists i :: 0 <= i < j && order[i].table == d
  {
    forall j, d | 0 <= j < |order| && d in Depends(order[j]) && d in Registered(values)
      ensures exists i :: 0 <= i < j && order[i].table == d
    {
      SuppliedDependencyEarlier(values, order, j, d);
    }
  }

  /**
   * In the log CreateTable writes for order, every table of supplied that
   * order[j] depends on has its CREATE TABLE issued, by an earlier model,
   * before any statement of order[j].
   */
  ghost predicate CreatedBefore(cfg: Config, order: seq<Schema>, supplied: map<string, Schema>, asWritten: bool)
    requires forall i :: 0 <= i < |order| ==> WellFormed(order[i])
  {
    forall j, d :: 0 <= j < |order| && d in Depends(order[j]) && d in supplied ==>
      exists i :: 0 <= i < j && order[i].table == d
        && 0 <= TableOffset(cfg, order, asWritten, i)
        && TableOffset(cfg, order, asWritten, i) < Offset(cfg, order, asWritten, j) < |CreateTablesLog(cfg, order, asWritten)|
        && CreateTablesLog(cfg, order, asWritten)[TableOffset(cfg, order, asWritten, i)] == CreateTableStmt(cfg, order[i])
  }

  /** When every dependency in a set is ordered earlier, its CREATE TABLE is issued earlier. */
  lemma CreatedBeforeDependents(cfg: Config, order: seq<Schema>, supplied: map<string, Schema>, asWritten: bool)
    requires forall i :: 0 <= i < |order| ==> WellFormed(order[i])
    requires forall j, d :: 0 <= j < |order| && d in Depends(order[j]) && d in supplied ==>
               exists i :: 0 <= i < j && order[i].table == d
    ensures CreatedBefore(cfg, order, supplied, asWritten)
  {
    forall j, d | 0 <= j < |order| && d in Depends(order[j]) && d in supplied
      ensures exists i :: 0 <= i < j && order[i].table == d
                && 0 <= TableOffset(cfg, order, asWritten, i)
                && TableOffset(cfg, order, asWritten, i) < Offset(cfg, order, asWritten, j) < |CreateTablesLog(cfg, order, asWritten)|
                && CreateTablesLog(cfg, order, asWritten)[TableOffset(cfg, order, asWritten, i)] == CreateTableStmt(cfg, order[i])
    {
      var i :| 0 <= i < j && order[i].table == d;
      OffsetAt(cfg, order, asWritten, i);
      OffsetAt(cfg, order, asWritten, j);
      OffsetLess(cfg, order, asWritten, i, j);
    }
  }

  lemma SuppliedDependencyEarlier(values: seq<Schema>, order: seq<Schema>, j: nat, d: string)
    requires Reordered(values, false, map[], order)
    requires j < |order| && d in Depends(order[j]) && d in Registered(values)
    ensures exists i :: 0 <= i < j && order[i].table == d
  {
    assert d in TablesOf(order[..j]);
    var i :| 0 <= i < j && TablesOf(order[..j])[i] == d;
    assert order[..j][i] == order[i];
  }

  /** Without autoAdd, the reordered models are supplied ones, so each is well formed. */
  lemma ReorderedModels(values: seq<Schema>, order: seq<Schema>)
    requires Reordered(values, false, map[], order)
    requires forall v :: v in values ==> WellFormed(v)
    ensures forall i :: 0 <= i < |order| ==> WellFormed(order[i]) && order[i] in values
    ensures forall t :: t in Registered(values) <==> t in TablesOf(order)
  {
    forall i | 0 <= i < |order|
      ensures order[i] in values
    {
      assert order[i] in order;
    }
    forall t | t in TablesOf(order)
      ensures t in Registered(values)
    {
      var k :| 0 <= k < |order| && order[k].table == t;
      assert order[k] in order;
    }
  }

  // ---------------------------------------------------------------------
  // Views (migrator/migrator.go:295-301)
  // ---------------------------------------------------------------------

  /** gorm.ViewOption; the query builder is not part of this model. */
  datatype ViewOption = ViewOption(replace: bool, checkOption: string)

  /** The generic migrator supports no views: both calls fail, whatever their arguments. */
  function CreateView(name: string, option: ViewOption): (err: Option<Error>)
    ensures err == Some(NotImplemented)
  {
    Some(NotImplemented)
  }

  function DropView(name: string): (err: Option<Error>)
    ensures err == Some(NotImplemented)
  {
    Some(NotImplemented)
  }

  // ---------------------------------------------------------------------
  // The Migrator
  // ---------------------------------------------------------------------

  class Migrator {
    const cfg: Config
    const db: Database

    constructor(cfg: Config, db: Database)
      ensures this.cfg == cfg && this.db == db
    {
      this.cfg := cfg;
      this.db := db;
    }

    /** The four column operations share the lookup guard; only the statement differs. */
    method ColumnOperation(s: Schema, op: ColumnOp) returns (err: Option<Error>)
      modifies db
      ensures ColumnOpStmt(cfg, s, op).Ok? ==> db.log == old(db.log) + [ColumnOpStmt(cfg, s, op).value] && err == None
      ensures ColumnOpStmt(cfg, s, op).Err? ==> db.log == old(db.log) && err == Some(ColumnOpStmt(cfg, s, op).error)
    {
      var field := LookUpField(s, op.field);
      if field.Some? {
        var f := field.value;
        err := None;
        match op
        case Add(_) =>
          db.Exec(Stmt("ALTER TABLE ? ADD ? ?",
            [TableValue(NamedTable(s.table)), ColumnValue(NamedColumn(f.dbName)), ExprValue(Expr(DataTypeOf(cfg, f)))]));
        case Drop(_) =>
          db.Exec(Stmt("ALTER TABLE ? DROP COLUMN ?", [TableValue(NamedTable(s.table)), ColumnValue(NamedColumn(f.dbName))]));
        case Alter(_) =>
          db.Exec(Stmt("ALTER TABLE ? ALTER COLUMN ? TYPE ?",
            [TableValue(NamedTable(s.table)), ColumnValue(NamedColumn(f.dbName)), ExprValue(Expr(DataTypeOf(cfg, f)))]));
        case Rename(oldName, _) =>
          var column := cfg.columnName(s.table, oldName);
          db.Exec(Stmt("ALTER TABLE ? RENAME COLUMN ? TO ?",
            [TableValue(NamedTable(s.table)), ColumnValue(NamedColumn(column)), ColumnValue(NamedColumn(f.dbName))]));
      } else {
        err := Some(LookupFailed(op.field));
      }
    }

    method AddColumn(s: Schema, field: string) returns (err: Option<Error>)
      modifies db
      ensures ColumnOpStmt(cfg, s, Add(field)).Ok? ==> db.log == old(db.log) + [ColumnOpStmt(cfg, s, Add(field)).value] && err == None
      ensures ColumnOpStmt(cfg, s, Add(field)).Err? ==> db.log == old(db.log) && err == Some(LookupFailed(field))
    {
      err := ColumnOperation(s, Add(field));
    }

    method DropColumn(s: Schema, field: string) returns (err: Option<Error>)
      modifies db
      ensures ColumnOpStmt(cfg, s, Drop(field)).Ok? ==> db.log == old(db.log) + [ColumnOpStmt(cfg, s, Drop(field)).value] && err == None
      ensures ColumnOpStmt(cfg, s, Drop(field)).Err? ==> db.log == old(db.log) && err == Some(LookupFailed(field))
    {
      err := ColumnOperation(s, Drop(field));
    }

    method AlterColumn(s: Schema, field: string) returns (err: Option<Error>)
      modifies db
      ensures ColumnOpStmt(cfg, s, Alter(field)).Ok? ==> db.log == old(db.log) + [ColumnOpStmt(cfg, s, Alter(field)).value] && err == None
      ensures ColumnOpStmt(cfg, s, Alter(field)).Err? ==> db.log == old(db.log) && err == Some(LookupFailed(field))
    {
      err := ColumnOperation(s, Alter(field));
    }

    method RenameColumn(s: Schema, oldName: string, field: string) returns (err: Option<Error>)
      modifies db
      ensures ColumnOpStmt(cfg, s, Rename(oldName, field)).Ok? ==>
                db.log == old(db.log) + [ColumnOpStmt(cfg, s, Rename(oldName, field)).value] && err == None
      ensures ColumnOpStmt(cfg, s, Rename(oldName, field)).Err? ==> db.log == old(db.log) && err == Some(LookupFailed(field))
    {
      err := ColumnOperation(s, Rename(oldName, field));
    }

    /** DropTable: the reordered models, back to front, each dropped when the database has it. */
    method DropTable(values: seq<Schema>, ghost rank: map<string, nat>) returns (ghost order: seq<Schema>)
      requires Acyclic(Universe(values, map[], false), rank)
      modifies db
      ensures Reordered(values, false, map[], order)
      ensures db.log == old(db.log) + DropLog(DroppedTables(order, db.tables))
    {
      var ordered := ReorderModels(values, false, map[], rank);
      order := ordered;
      DropInReverse(ordered);
    }

    /** The loop of DropTable. */
    method DropInReverse(ordered: seq<Schema>)
      modifies db
      ensures db.log == old(db.log) + DropLog(DroppedTables(ordered, db.tables))
    {
      for i := |ordered| downto 0
        invariant db.log == old(db.log) + DropLog(DroppedTables(ordered[i..], db.tables))
      {
        assert ordered[i..][1..] == ordered[i + 1..];
        if ordered[i].table in db.tables {
          db.Exec(DropStmt(ordered[i].table));
        }
      }
    }

    /**
     * CreateTable: for each reordered model, when indexes are created
     * after the table, a CreateIndex by name for each of its indexes
     * (their errors ignored), then its CREATE TABLE statement.
     */
    method CreateTable(values: seq<Schema>, ghost rank: map<string, nat>) returns (ghost order: seq<Schema>)
      requires forall v :: v in values ==> WellFormed(v)
      requires Acyclic(Universe(values, map[], false), rank)
      modifies db
      ensures Reordered(values, false, map[], order)
      ensures forall i :: 0 <= i < |order| ==> WellFormed(order[i])
      ensures db.log == old(db.log) + CreateTablesLog(cfg, order, true)
    {
      var ordered := ReorderModels(values, false, map[], rank);
      order := ordered;
      ReorderedModels(values, ordered);
      TableLogsPointwise(cfg, ordered, true);
      CreateInOrder(ordered, TableLogs(cfg, ordered, true));
    }

    /** The loop of CreateTable, given the log each model's turn is to issue. */
    method CreateInOrder(ordered: seq<Schema>, ghost logs: seq<seq<Stmt>>)
      requires forall i :: 0 <= i < |ordered| ==> WellFormed(ordered[i])
      requires |logs| == |ordered|
      requires forall k :: 0 <= k < |ordered| ==> logs[k] == ModelLog(cfg, ordered[k], true)
      modifies db
      ensures db.log == old(db.log) + Flatten(logs)
    {
      for i := 0 to |ordered|
        invariant db.log == old(db.log) + Flatten(logs[..i])
      {
        FlattenSnoc(logs, i);
        ghost var before := db.log;
        CreateOne(ordered[i]);
        AppendStep(old(db.log), before, db.log, Flatten(logs[..i]), logs[i]);
      }
      assert logs[..|ordered|] == logs;
    }

    /** One model's turn in CreateTable. */
    method CreateOne(s: Schema)
      requires WellFormed(s)
      modifies db
      ensures db.log == old(db.log) + TableLogAsWritten(cfg, s)
    {
      if cfg.createIndexAfterCreateTable {
        CreateIndexesAfter(s);
      }
      ghost var mid := db.log;
      var sql, vals := BuildCreateTable(cfg, s);
      db.Exec(Stmt(sql, vals));
      AppendStep(old(db.log), mid, db.log, IndexLog(cfg, s), [Stmt(sql, vals)]);
    }

    /** The index loop of CreateTable when indexes are created after the table. */
    method CreateIndexesAfter(s: Schema)
      modifies db
      ensures db.log == old(db.log) + IndexesAfter(cfg.dialector, s, s.indexes)
    {
      for i := 0 to |s.indexes|
        invariant db.log == old(db.log) + IndexesAfter(cfg.dialector, s, s.indexes[..i])
      {
        IndexesAfterSnoc(cfg.dialector, s, s.indexes, i);
        ghost var before := db.log;
        CreateFoundIndex(s, s.indexes[i].name);
        AppendStep(old(db.log), before, db.log, IndexesAfter(cfg.dialector, s, s.indexes[..i]),
                   NamedIndexStmts(cfg.dialector, s, s.indexes[i].name));
      }
      assert s.indexes[..|s.indexes|] == s.indexes;
    }

    /**
     * CreateIndex: by index name, the index's statement; otherwise, when
     * the name resolves to a field, a creation (by name) of every index
     * per option on that field; otherwise an error.
     */
    method CreateIndex(s: Schema, name: string) returns (err: Option<Error>)
      modifies db
      ensures CreateIndexPlan(cfg.dialector, s, name).Ok? ==>
                db.log == old(db.log) + CreateIndexPlan(cfg.dialector, s, name).value && err == None
      ensures CreateIndexPlan(cfg.dialector, s, name).Err? ==>
                db.log == old(db.log) && err == Some(CreateIndexPlan(cfg.dialector, s, name).error)
    {
      err := Some(IndexFailed(name));
      var found := FindIndex(s.indexes, name);
      if found.Some? {
        CreateFoundIndex(s, name);
        return None;
      }
      var field := LookUpField(s, name);
      if field.Some? {
        var f := field.value;
        for i := 0 to |s.indexes|
          invariant db.log == old(db.log) + FieldIndexStmts(cfg.dialector, s, f, s.indexes[..i])
          invariant err == (if FieldIndexStmts(cfg.dialector, s, f, s.indexes[..i]) == [] then Some(IndexFailed(name)) else None)
        {
          var idx := s.indexes[i];
          err := CreateIndexesOn(s, f, idx, err);
          assert s.indexes[..i + 1][..i] == s.indexes[..i];
        }
        assert s.indexes[..|s.indexes|] == s.indexes;
      }
    }

    /**
     * The first branch of CreateIndex, taken when the name names an index:
     * that index's statement. The by-name calls CreateIndex makes for each
     * option, and CreateTable for each index, always take this branch.
     */
    method CreateFoundIndex(s: Schema, name: string)
      requires FindIndex(s.indexes, name).Some?
      modifies db
      ensures db.log == old(db.log) + NamedIndexStmts(cfg.dialector, s, name)
    {
      var found := FindIndex(s.indexes, name);
      var sql, values := BuildCreateIndex(cfg.dialector, s.table, found.value);
      db.Exec(Stmt(sql, values));
    }

    /** The inner loop of CreateIndex: one by-name creation of idx per option on the field. */
    method CreateIndexesOn(s: Schema, f: Field, idx: Index, err0: Option<Error>) returns (err: Option<Error>)
      modifies db
      requires idx in s.indexes
      ensures db.log == old(db.log) + OptionIndexStmts(cfg.dialector, s, f, idx.name, idx.fields)
      ensures err == (if OptionIndexStmts(cfg.dialector, s, f, idx.name, idx.fields) == [] then err0 else None)
    {
      err := err0;
      for j := 0 to |idx.fields|
        invariant db.log == old(db.log) + OptionIndexStmts(cfg.dialector, s, f, idx.name, idx.fields[..j])
        invariant err == (if OptionIndexStmts(cfg.dialector, s, f, idx.name, idx.fields[..j]) == [] then err0 else None)
      {
        assert idx.fields[..j + 1][..j] == idx.fields[..j];
        if idx.fields[j].field == f {
          IndexFoundByName(s, idx);
          CreateFoundIndex(s, idx.name);
          err := None;
        }
      }
      assert idx.fields[..|idx.fields|] == idx.fields;
    }
  }

  lemma IndexFoundByName(s: Schema, idx: Index)
    requires idx in s.indexes
    ensures FindIndex(s.indexes, idx.name).Some?
  {
    var i :| 0 <= i < |s.indexes| && s.indexes[i] == idx;
  }
}
