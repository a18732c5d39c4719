/**
 * The CREATE TABLE statement of the generic migrator
 * (migrator/migrator.go:102-186): one entry per column, the primary key
 * unless a column type declares it, the inline indexes (unless they are
 * created afterwards), the foreign-key constraints and the check
 * constraints, comma-separated inside "CREATE TABLE ? (" ... ")".
 *
 * The specification is a list of entries, each rendered to a fragment;
 * the statement is the fragments' concatenation with its final comma
 * trimmed. BuildCreateTable assembles the same statement step by step.
 */
module CreateTableSql {
  import opened Wrappers
  import opened Strings
  import opened Clause
  import opened Schema
  import opened Ddl

  /** One comma-terminated part of the column list. */
  datatype Entry =
    | ColumnDef(dbName: string, field: Field)
    | PrimaryKeyDef(fields: seq<Field>)
    | IndexDef(index: Index)
    | ForeignKeyDef(constraint: Constraint)
    | CheckDef(check: CheckConstraint)

  /** The position of each kind of entry in the statement. */
  function Kind(e: Entry): nat
  {
    match e
    case ColumnDef(_, _) => 0
    case PrimaryKeyDef(_) => 1
    case IndexDef(_) => 2
    case ForeignKeyDef(_) => 3
    case CheckDef(_) => 4
  }

  // ---------------------------------------------------------------------
  // Fragments
  // ---------------------------------------------------------------------

  /** The column modifiers, in the order the source appends them. */
  function Modifiers(field: Field): string
  {
    AutoIncrementWord(field) + NotNullWord(field) + UniqueWord(field) + DefaultWord(field)
  }

  function AutoIncrementWord(field: Field): string
  {
    if field.autoIncrement then " AUTO_INCREMENT" else ""
  }

  function NotNullWord(field: Field): string
  {
    if field.notNull then " NOT NULL" else ""
  }

  function UniqueWord(field: Field): string
  {
    if field.unique then " UNIQUE" else ""
  }

  function DefaultWord(field: Field): string
  {
    if field.defaultValue != "" then " DEFAULT ?" else ""
  }

  /** The text and values one entry contributes. */
  function Fragment(cfg: Config, e: Entry): Stmt
  {
    match e
    case ColumnDef(dbName, field) =>
      Stmt("? ?" + Modifiers(field) + ",",
           [ColumnValue(NamedColumn(dbName)), ExprValue(Expr(DataTypeOf(cfg, field)))]
             + (if field.defaultValue != "" then [ExprValue(Expr(field.defaultValue))] else []))
    case PrimaryKeyDef(fields) =>
      Stmt("PRIMARY KEY ?,", [List(Columns(fields))])
    case IndexDef(idx) =>
      Stmt("INDEX ? ?,", [ExprValue(Expr(idx.name)), List(IndexOptionValues(cfg.dialector.quote, idx.fields))])
    case ForeignKeyDef(c) =>
      Stmt(ConstraintSql(c) + ",", ConstraintValues(c))
    case CheckDef(chk) =>
      Stmt("CONSTRAINT ? CHECK ?,", [ColumnValue(NamedColumn(chk.name)), ExprValue(Expr(chk.constraint))])
  }

  /** The fragments of a list of entries, concatenated. */
  function Fragments(cfg: Config, es: seq<Entry>): Stmt
  {
    if es == [] then Stmt("", [])
    else Join(Fragments(cfg, es[..|es| - 1]), Fragment(cfg, es[|es| - 1]))
  }

  lemma {:induction false} FragmentsAppend(cfg: Config, a: seq<Entry>, b: seq<Entry>)
    ensures Fragments(cfg, a + b) == Join(Fragments(cfg, a), Fragments(cfg, b))
  {
    if b == [] {
      assert a + b == a;
    } else {
      var init, last := b[..|b| - 1], b[|b| - 1];
      assert (a + b)[..|a + b| - 1] == a + init;
      assert (a + b)[|a + b| - 1] == last;
      FragmentsAppend(cfg, a, init);
      JoinAssociative(Fragments(cfg, a), Fragments(cfg, init), Fragment(cfg, last));
    }
  }

  lemma FragmentsSnoc(cfg: Config, es: seq<Entry>, i: nat)
    requires i < |es|
    ensures Fragments(cfg, es[..i + 1]) == Join(Fragments(cfg, es[..i]), Fragment(cfg, es[i]))
  {
    assert es[..i + 1][..i] == es[..i];
  }

  /** A fragment's only free text is a constraint's referential actions. */
  predicate PlainEntry(e: Entry)
  {
    e.ForeignKeyDef? ==> PlainActions(e.constraint)
  }

  /** Every fragment ends with a comma and, when plain, has one marker per value. */
  lemma FragmentShape(cfg: Config, e: Entry)
    ensures HasSuffix(Fragment(cfg, e).sql, ",")
    ensures PlainEntry(e) ==> Balanced(Fragment(cfg, e))
  {
    var sql := Fragment(cfg, e).sql;
    assert sql == sql[..|sql| - 1] + ",";
    SuffixOfConcat(sql[..|sql| - 1], ",");
    if PlainEntry(e) {
      FragmentMarkers(cfg, e);
    }
  }

  lemma FragmentMarkers(cfg: Config, e: Entry)
    requires PlainEntry(e)
    ensures Balanced(Fragment(cfg, e))
  {
    FragmentTemplateMarkers();
    match e
    case ColumnDef(dbName, field) =>
      CountAppend('?', "? ?" + Modifiers(field), ",");
      CountAppend('?', "? ?", Modifiers(field));
      ModifierMarkers(field);
    case PrimaryKeyDef(_) =>
    case IndexDef(_) =>
    case ForeignKeyDef(c) =>
      CountAppend('?', ConstraintSql(c), ",");
      ConstraintShape(c);
    case CheckDef(_) =>
  }

  lemma FragmentTemplateMarkers()
    ensures Count('?', ",") == 0 && Count('?', "? ?") == 2
    ensures Count('?', "PRIMARY KEY ?,") == 1
    ensures Count('?', "INDEX ? ?,") == 2
    ensures Count('?', "CONSTRAINT ? CHECK ?,") == 2
  {
    CountAbsent('?', ",");
    assert "? ?" == "" + "?" + " " + "?" + "";
    TwoMarkers("", " ", "");
    assert "PRIMARY KEY ?," == "PRIMARY KEY " + "?" + ",";
    OneMarker("PRIMARY KEY ", ",");
    assert "INDEX ? ?," == "INDEX " + "?" + " " + "?" + ",";
    TwoMarkers("INDEX ", " ", ",");
    assert "CONSTRAINT ? CHECK ?," == "CONSTRAINT " + "?" + " CHECK " + "?" + ",";
    TwoMarkers("CONSTRAINT ", " CHECK ", ",");
  }

  /** The modifiers carry a marker exactly when there is a default value. */
  lemma ModifierMarkers(field: Field)
    ensures Count('?', Modifiers(field)) == (if field.defaultValue != "" then 1 else 0)
  {
    var a, n, u, d := AutoIncrementWord(field), NotNullWord(field), UniqueWord(field), DefaultWord(field);
    CountAppend('?', a + n + u, d);
    CountAppend('?', a + n, u);
    CountAppend('?', a, n);
    ModifierTemplateMarkers();
  }

  lemma ModifierTemplateMarkers()
    ensures Count('?', " AUTO_INCREMENT") == 0 && Count('?', " NOT NULL") == 0 && Count('?', " UNIQUE") == 0
    ensures Count('?', " DEFAULT ?") == 1
  {
    CountAbsent('?', " AUTO_INCREMENT");
    CountAbsent('?', " NOT NULL");
    CountAbsent('?', " UNIQUE");
    assert " DEFAULT ?" == " DEFAULT " + "?" + "";
    OneMarker(" DEFAULT ", "");
  }

  lemma {:induction false} FragmentsBalanced(cfg: Config, es: seq<Entry>)
    requires forall i :: 0 <= i < |es| ==> PlainEntry(es[i])
    ensures Balanced(Fragments(cfg, es))
  {
    if es != [] {
      FragmentsBalanced(cfg, es[..|es| - 1]);
      FragmentShape(cfg, es[|es| - 1]);
      JoinBalanced(Fragments(cfg, es[..|es| - 1]), Fragment(cfg, es[|es| - 1]));
    }
  }

  lemma FragmentsEndWithComma(cfg: Config, es: seq<Entry>)
    requires es != []
    ensures HasSuffix(Fragments(cfg, es).sql, ",")
  {
    var init := Fragments(cfg, es[..|es| - 1]).sql;
    var last := Fragment(cfg, es[|es| - 1]).sql;
    FragmentShape(cfg, es[|es| - 1]);
    assert (init + last)[|init + last| - 1..] == last[|last| - 1..];
  }

  // ---------------------------------------------------------------------
  // The entries of a schema
  // ---------------------------------------------------------------------

  /** A column type that spells out PRIMARY KEY (in any letter case). */
  predicate DeclaresPrimaryKey(field: Field)
  {
    Contains(ToUpper(field.dbDataType), "PRIMARY KEY")
  }

  /** hasPrimaryKeyInDataType after visiting the given columns. */
  function PrimaryKeyInTypes(s: Schema, names: seq<string>): (r: bool)
    requires forall i :: 0 <= i < |names| ==> names[i] in s.fieldsByDBName
    ensures r <==> exists i :: 0 <= i < |names| && DeclaresPrimaryKey(s.fieldsByDBName[names[i]])
  {
    if names == [] then false
    else
      var init := names[..|names| - 1];
      assert forall i :: 0 <= i < |init| ==> init[i] == names[i];
      PrimaryKeyInTypes(s, init) || DeclaresPrimaryKey(s.fieldsByDBName[names[|names| - 1]])
  }

  function ColumnEntries(s: Schema, names: seq<string>): (es: seq<Entry>)
    requires forall i :: 0 <= i < |names| ==> names[i] in s.fieldsByDBName
    ensures |es| == |names|
    ensures forall i :: 0 <= i < |names| ==> es[i] == ColumnDef(names[i], s.fieldsByDBName[names[i]])
  {
    seq(|names|, i requires 0 <= i < |names| => ColumnDef(names[i], s.fieldsByDBName[names[i]]))
  }

  function PrimaryKeyEntries(s: Schema): seq<Entry>
    requires WellFormed(s)
  {
    if PrimaryKeyInTypes(s, s.dbNames) then [] else [PrimaryKeyDef(s.primaryFields)]
  }

  function IndexEntries(indexes: seq<Index>): (es: seq<Entry>)
    ensures |es| == |indexes|
    ensures forall i :: 0 <= i < |indexes| ==> es[i] == IndexDef(indexes[i])
  {
    seq(|indexes|, i requires 0 <= i < |indexes| => IndexDef(indexes[i]))
  }

  /** The constraints the relationships yield, in relationship order. */
  function ForeignKeyEntries(rels: seq<Relationship>): (es: seq<Entry>)
    ensures |es| <= |rels|
    ensures forall i :: 0 <= i < |es| ==> es[i].ForeignKeyDef?
  {
    if rels == [] then []
    else
      var last := rels[|rels| - 1];
      ForeignKeyEntries(rels[..|rels| - 1]) + (if last.constraint.Some? then [ForeignKeyDef(last.constraint.value)] else [])
  }

  function CheckEntries(checks: seq<CheckConstraint>): (es: seq<Entry>)
    ensures |es| == |checks|
    ensures forall i :: 0 <= i < |checks| ==> es[i] == CheckDef(checks[i])
  {
    seq(|checks|, i requires 0 <= i < |checks| => CheckDef(checks[i]))
  }

  /** The entries of the statement, in the order the source emits them. */
  function Entries(cfg: Config, s: Schema): seq<Entry>
    requires WellFormed(s)
  {
    ColumnEntries(s, s.dbNames)
      + PrimaryKeyEntries(s)
      + (if cfg.createIndexAfterCreateTable then [] else IndexEntries(s.indexes))
      + ForeignKeyEntries(s.relationships)
      + CheckEntries(s.checks)
  }

  const Header := "CREATE TABLE ? ("

  /** The statement CreateTable executes for one schema. */
  function CreateTableStmt(cfg: Config, s: Schema): Stmt
    requires WellFormed(s)
  {
    var body := Fragments(cfg, Entries(cfg, s));
    Stmt(TrimSuffix(Header + body.sql, ",") + ")", [TableValue(NamedTable(s.table))] + body.values)
  }

  // ---------------------------------------------------------------------
  // Properties of the statement
  // ---------------------------------------------------------------------

  /**
   * Columns come first, then the primary key, indexes, foreign keys and
   * checks: the kinds of the entries never decrease.
   */
  lemma EntriesOrdered(cfg: Config, s: Schema)
    requires WellFormed(s)
    ensures forall i, j :: 0 <= i < j < |Entries(cfg, s)| ==> Kind(Entries(cfg, s)[i]) <= Kind(Entries(cfg, s)[j])
  {
    var es := Entries(cfg, s);
    var c := ColumnEntries(s, s.dbNames);
    var p := PrimaryKeyEntries(s);
    var x := if cfg.createIndexAfterCreateTable then [] else IndexEntries(s.indexes);
    var f := ForeignKeyEntries(s.relationships);
    var k := CheckEntries(s.checks);
    assert es == c + p + x + f + k;
    assert forall i :: 0 <= i < |es| ==>
      Kind(es[i]) == (if i < |c| then 0
                      else if i < |c| + |p| then 1
                      else if i < |c| + |p| + |x| then 2
                      else if i < |c| + |p| + |x| + |f| then 3
                      else 4);
  }

  /** The column entries are the columns of DBNames, in order, each with its field. */
  lemma ColumnsInOrder(cfg: Config, s: Schema)
    requires WellFormed(s)
    ensures |s.dbNames| <= |Entries(cfg, s)|
    ensures forall i :: 0 <= i < |s.dbNames| ==>
              Entries(cfg, s)[i] == ColumnDef(s.dbNames[i], s.fieldsByDBName[s.dbNames[i]])
    ensures forall i :: |s.dbNames| <= i < |Entries(cfg, s)| ==> !Entries(cfg, s)[i].ColumnDef?
  {
    var c := ColumnEntries(s, s.dbNames);
    var rest := PrimaryKeyEntries(s)
      + (if cfg.createIndexAfterCreateTable then [] else IndexEntries(s.indexes))
      + ForeignKeyEntries(s.relationships)
      + CheckEntries(s.checks);
    assert Entries(cfg, s) == c + rest;
  }

  /**
   * The statement carries a PRIMARY KEY entry, listing the primary fields'
   * columns, exactly when no column's own type declares the primary key.
   */
  lemma PrimaryKeyEntry(cfg: Config, s: Schema)
    requires WellFormed(s)
    ensures PrimaryKeyDef(s.primaryFields) in Entries(cfg, s) <==>
              forall n :: n in s.dbNames ==> !DeclaresPrimaryKey(s.fieldsByDBName[n])
    ensures forall e :: e in Entries(cfg, s) && e.PrimaryKeyDef? ==> e == PrimaryKeyDef(s.primaryFields)
  {
    var c := ColumnEntries(s, s.dbNames);
    var p := PrimaryKeyEntries(s);
    var rest := (if cfg.createIndexAfterCreateTable then [] else IndexEntries(s.indexes))
      + ForeignKeyEntries(s.relationships)
      + CheckEntries(s.checks);
    assert Entries(cfg, s) == c + p + rest;
    assert forall e :: e in rest ==> !e.PrimaryKeyDef?;
    assert forall e :: e in c ==> e.ColumnDef?;
    if !PrimaryKeyInTypes(s, s.dbNames) {
      assert forall n :: n in s.dbNames ==> !DeclaresPrimaryKey(s.fieldsByDBName[n]);
    } else {
      var i :| 0 <= i < |s.dbNames| && DeclaresPrimaryKey(s.fieldsByDBName[s.dbNames[i]]);
      assert s.dbNames[i] in s.dbNames;
    }
  }

  /** The indexes are declared inline, in order, exactly when they are not created afterwards. */
  lemma InlineIndexes(cfg: Config, s: Schema)
    requires WellFormed(s)
    ensures (exists e :: e in Entries(cfg, s) && e.IndexDef?) ==> !cfg.createIndexAfterCreateTable
    ensures !cfg.createIndexAfterCreateTable ==>
              forall i :: 0 <= i < |s.indexes| ==> IndexDef(s.indexes[i]) in Entries(cfg, s)
  {
    var c := ColumnEntries(s, s.dbNames);
    var p := PrimaryKeyEntries(s);
    var x := if cfg.createIndexAfterCreateTable then [] else IndexEntries(s.indexes);
    var f := ForeignKeyEntries(s.relationships);
    var k := CheckEntries(s.checks);
    assert Entries(cfg, s) == c + p + x + f + k;
    assert forall e: Entry :: e in c + p + f + k ==> !e.IndexDef?;
    if !cfg.createIndexAfterCreateTable {
      assert forall i :: 0 <= i < |s.indexes| ==> x[i] == IndexDef(s.indexes[i]);
    }
  }

  /** A relationship's constraint is declared exactly when it has one. */
  lemma {:induction false} ForeignKeysOfRelationships(rels: seq<Relationship>)
    ensures forall c :: ForeignKeyDef(c) in ForeignKeyEntries(rels) <==>
              exists i :: 0 <= i < |rels| && rels[i].constraint == Some(c)
  {
    if rels != [] {
      var init := rels[..|rels| - 1];
      ForeignKeysOfRelationships(init);
      assert forall i :: 0 <= i < |init| ==> init[i] == rels[i];
      forall c | exists i :: 0 <= i < |rels| && rels[i].constraint == Some(c)
        ensures ForeignKeyDef(c) in ForeignKeyEntries(rels)
      {
        var i :| 0 <= i < |rels| && rels[i].constraint == Some(c);
        if i < |init| {
          assert init[i].constraint == Some(c);
        }
      }
    }
  }

  /**
   * The text is the header, the fragments with the last comma dropped, and
   * a closing parenthesis; the table comes first among the values, then the
   * fragments' values in entry order.
   */
  lemma CreateTableText(cfg: Config, s: Schema)
    requires WellFormed(s)
    ensures Entries(cfg, s) != []
    ensures var body := Fragments(cfg, Entries(cfg, s));
            && |body.sql| > 0
            && CreateTableStmt(cfg, s).sql == Header + body.sql[..|body.sql| - 1] + ")"
            && CreateTableStmt(cfg, s).values == [TableValue(NamedTable(s.table))] + body.values
  {
    var es := Entries(cfg, s);
    EntriesNonEmpty(cfg, s);
    var body := Fragments(cfg, es);
    FragmentsEndWithComma(cfg, es);
    TrimComma(Header, body.sql);
    assert CreateTableStmt(cfg, s) == Stmt(TrimSuffix(Header + body.sql, ",") + ")", [TableValue(NamedTable(s.table))] + body.values);
  }

  /** Every statement has at least one entry: a column, or else the primary key. */
  lemma EntriesNonEmpty(cfg: Config, s: Schema)
    requires WellFormed(s)
    ensures Entries(cfg, s) != []
  {
    var es := Entries(cfg, s);
    if PrimaryKeyInTypes(s, s.dbNames) {
      assert es[0] == ColumnEntries(s, s.dbNames)[0];
    } else {
      assert es[|s.dbNames|] == PrimaryKeyDef(s.primaryFields);
    }
  }

  lemma TrimComma(head: string, body: string)
    requires HasSuffix(body, ",")
    ensures |body| > 0
    ensures TrimSuffix(head + body, ",") == head + body[..|body| - 1]
  {
    var full := head + body;
    assert full[|full| - 1..] == body[|body| - 1..];
    assert full[..|full| - 1] == head + body[..|body| - 1];
  }

  /** With plain referential actions, the statement has one marker per value. */
  lemma CreateTableBalanced(cfg: Config, s: Schema)
    requires WellFormed(s)
    requires forall r :: r in s.relationships && r.constraint.Some? ==> PlainActions(r.constraint.value)
    ensures Balanced(CreateTableStmt(cfg, s))
  {
    EntriesPlain(cfg, s);
    FragmentsBalanced(cfg, Entries(cfg, s));
    CreateTableText(cfg, s);
    WrappedMarkers(Fragments(cfg, Entries(cfg, s)).sql);
  }

  lemma EntriesPlain(cfg: Config, s: Schema)
    requires WellFormed(s)
    requires forall r :: r in s.relationships && r.constraint.Some? ==> PlainActions(r.constraint.value)
    ensures forall i :: 0 <= i < |Entries(cfg, s)| ==> PlainEntry(Entries(cfg, s)[i])
  {
    var es := Entries(cfg, s);
    forall i | 0 <= i < |es|
      ensures PlainEntry(es[i])
    {
      if es[i].ForeignKeyDef? {
        ForeignKeysOfRelationships(s.relationships);
        assert ForeignKeyDef(es[i].constraint) in ForeignKeyEntries(s.relationships) by {
          ForeignKeyEntryOrigin(cfg, s, i);
        }
        var j :| 0 <= j < |s.relationships| && s.relationships[j].constraint == Some(es[i].constraint);
        assert s.relationships[j] in s.relationships;
      }
    }
  }

  /** Replacing the body's trailing comma by the closing parenthesis adds the table's marker. */
  lemma WrappedMarkers(b: string)
    requires HasSuffix(b, ",")
    ensures |b| > 0
    ensures Count('?', Header + b[..|b| - 1] + ")") == Count('?', b) + 1
  {
    assert b == b[..|b| - 1] + [','];
    CountAppend('?', b[..|b| - 1], [',']);
    CountAppend('?', Header + b[..|b| - 1], ")");
    CountAppend('?', Header, b[..|b| - 1]);
    HeaderMarkers();
  }

  lemma ForeignKeyEntryOrigin(cfg: Config, s: Schema, i: nat)
    requires WellFormed(s)
    requires i < |Entries(cfg, s)| && Entries(cfg, s)[i].ForeignKeyDef?
    ensures Entries(cfg, s)[i] in ForeignKeyEntries(s.relationships)
  {
    var c := ColumnEntries(s, s.dbNames);
    var p := PrimaryKeyEntries(s);
    var x := if cfg.createIndexAfterCreateTable then [] else IndexEntries(s.indexes);
    var f := ForeignKeyEntries(s.relationships);
    var k := CheckEntries(s.checks);
    assert Entries(cfg, s) == (c + p + x) + f + k;
    assert forall e: Entry :: e in c + p + x + k ==> !e.ForeignKeyDef?;
    assert Entries(cfg, s)[i] in (c + p + x) + f + k;
  }

  lemma HeaderMarkers()
    ensures Count('?', Header) == 1 && Count('?', ")") == 0
  {
    assert Header == "CREATE TABLE " + "?" + " (";
    OneMarker("CREATE TABLE ", " (");
    CountAbsent('?', ")");
  }

  // ---------------------------------------------------------------------
  // The assembly, as the source performs it
  // ---------------------------------------------------------------------

  /** The text and values assembled so far: the header and table, then the fragments of `done`. */
  ghost predicate Assembled(cfg: Config, table: string, done: seq<Entry>, sql: string, values: seq<Value>)
  {
    sql == Header + Fragments(cfg, done).sql && values == [TableValue(NamedTable(table))] + Fragments(cfg, done).values
  }

  lemma AssembledStep(cfg: Config, table: string, done: seq<Entry>, sql: string, values: seq<Value>, e: Entry)
    requires Assembled(cfg, table, done, sql, values)
    ensures Assembled(cfg, table, done + [e], sql + Fragment(cfg, e).sql, values + Fragment(cfg, e).values)
  {
    FragmentsPush(cfg, done, e);
    JoinAssociative(Stmt(Header, [TableValue(NamedTable(table))]), Fragments(cfg, done), Fragment(cfg, e));
  }

  lemma FragmentsPush(cfg: Config, done: seq<Entry>, e: Entry)
    ensures Fragments(cfg, done + [e]) == Join(Fragments(cfg, done), Fragment(cfg, e))
  {
    var whole := done + [e];
    assert whole[..|whole| - 1] == done;
  }

  lemma PrefixSnoc<T>(s: seq<T>, i: nat)
    requires i < |s|
    ensures s[..i + 1] == s[..i] + [s[i]]
  {
  }

  lemma FullPrefix<T>(s: seq<T>)
    ensures s[..|s|] == s
  {
  }

  /**
   * CreateTable's statement for one schema, built as the source builds it:
   * the column loop (tracking hasPrimaryKeyInDataType), the primary key,
   * the inline indexes, the constraints and the checks, then the trim.
   */
  method BuildCreateTable(cfg: Config, s: Schema) returns (sql: string, values: seq<Value>)
    requires WellFormed(s)
    ensures Stmt(sql, values) == CreateTableStmt(cfg, s)
  {
    sql := Header;
    values := [TableValue(NamedTable(s.table))];
    var hasPrimaryKeyInDataType;
    sql, values, hasPrimaryKeyInDataType := AppendColumns(cfg, s, sql, values);
    ghost var done := ColumnEntries(s, s.dbNames);

    if !hasPrimaryKeyInDataType {
      sql, values := AppendPrimaryKey(cfg, s, done, sql, values);
    } else {
      assert done + PrimaryKeyEntries(s) == done;
    }
    done := done + PrimaryKeyEntries(s);
    if !cfg.createIndexAfterCreateTable {
      sql, values := AppendIndexes(cfg, s, done, sql, values);
    } else {
      assert done + [] == done;
    }
    done := done + (if cfg.createIndexAfterCreateTable then [] else IndexEntries(s.indexes));
    sql, values := AppendConstraints(cfg, s, done, sql, values);
    done := done + ForeignKeyEntries(s.relationships);
    sql, values := AppendChecks(cfg, s, done, sql, values);
    done := done + CheckEntries(s.checks);
    assert done == Entries(cfg, s);

    sql := TrimSuffix(sql, ",");
    sql := sql + ")";
  }

  /** The column loop: one fragment per name of DBNames, noting whether a type declares the primary key. */
  method AppendColumns(cfg: Config, s: Schema, sql0: string, values0: seq<Value>)
    returns (sql: string, values: seq<Value>, hasPrimaryKeyInDataType: bool)
    requires WellFormed(s)
    requires Assembled(cfg, s.table, [], sql0, values0)
    ensures Assembled(cfg, s.table, ColumnEntries(s, s.dbNames), sql, values)
    ensures hasPrimaryKeyInDataType == PrimaryKeyInTypes(s, s.dbNames)
  {
    sql, values := sql0, values0;
    hasPrimaryKeyInDataType := false;
    ghost var cols := ColumnEntries(s, s.dbNames);
    for i := 0 to |s.dbNames|
      invariant Assembled(cfg, s.table, cols[..i], sql, values)
      invariant hasPrimaryKeyInDataType == PrimaryKeyInTypes(s, s.dbNames[..i])
    {
      var dbName := s.dbNames[i];
      var field := s.fieldsByDBName[dbName];
      PrefixSnoc(s.dbNames, i);
      hasPrimaryKeyInDataType := hasPrimaryKeyInDataType || DeclaresPrimaryKey(field);
      var fsql, fvalues := BuildColumn(cfg, dbName, field);
      AssembledStep(cfg, s.table, cols[..i], sql, values, cols[i]);
      PrefixSnoc(cols, i);
      sql, values := sql + fsql, values + fvalues;
    }
    FullPrefix(s.dbNames);
    FullPrefix(cols);
  }

  /** "PRIMARY KEY ?," with the list of the primary fields' columns. */
  method AppendPrimaryKey(cfg: Config, s: Schema, ghost done: seq<Entry>, sql0: string, values0: seq<Value>)
    returns (sql: string, values: seq<Value>)
    requires WellFormed(s) && !PrimaryKeyInTypes(s, s.dbNames)
    requires Assembled(cfg, s.table, done, sql0, values0)
    ensures Assembled(cfg, s.table, done + PrimaryKeyEntries(s), sql, values)
  {
    sql := sql0 + "PRIMARY KEY ?,";
    var primaryKeys: seq<Value> := [];
    for i := 0 to |s.primaryFields|
      invariant primaryKeys == Columns(s.primaryFields[..i])
    {
      primaryKeys := primaryKeys + [ColumnValue(NamedColumn(s.primaryFields[i].dbName))];
    }
    FullPrefix(s.primaryFields);
    values := values0 + [List(primaryKeys)];
    AssembledStep(cfg, s.table, done, sql0, values0, PrimaryKeyDef(s.primaryFields));
  }

  /** The inline indexes: "INDEX ? ?," with the index name and its column list, per index. */
  method AppendIndexes(cfg: Config, s: Schema, ghost done: seq<Entry>, sql0: string, values0: seq<Value>)
    returns (sql: string, values: seq<Value>)
    requires Assembled(cfg, s.table, done, sql0, values0)
    ensures Assembled(cfg, s.table, done + IndexEntries(s.indexes), sql, values)
  {
    sql, values := sql0, values0;
    ghost var idxs := IndexEntries(s.indexes);
    assert done + idxs[..0] == done;
    for i := 0 to |s.indexes|
      invariant Assembled(cfg, s.table, done + idxs[..i], sql, values)
    {
      var idx := s.indexes[i];
      var opts := BuildIndexOptions(cfg.dialector, idx.fields);
      AssembledStep(cfg, s.table, done + idxs[..i], sql, values, idxs[i]);
      PrefixSnoc(idxs, i);
      assert done + idxs[..i + 1] == done + idxs[..i] + [idxs[i]];
      sql := sql + "INDEX ? ?,";
      values := values + [ExprValue(Expr(idx.name)), List(opts)];
    }
    FullPrefix(idxs);
  }

  /** The relationship loop: the constraint of each relationship that has one. */
  method AppendConstraints(cfg: Config, s: Schema, ghost done: seq<Entry>, sql0: string, values0: seq<Value>)
    returns (sql: string, values: seq<Value>)
    requires Assembled(cfg, s.table, done, sql0, values0)
    ensures Assembled(cfg, s.table, done + ForeignKeyEntries(s.relationships), sql, values)
  {
    sql, values := sql0, values0;
    assert s.relationships[..0] == [];
    assert done + ForeignKeyEntries([]) == done;
    for i := 0 to |s.relationships|
      invariant Assembled(cfg, s.table, done + ForeignKeyEntries(s.relationships[..i]), sql, values)
    {
      var rel := s.relationships[i];
      ghost var prev := ForeignKeyEntries(s.relationships[..i]);
      ForeignKeyEntriesSnoc(s.relationships, i);
      if rel.constraint.Some? {
        var csql, vars := BuildConstraint(rel.constraint.value);
        AssembledStep(cfg, s.table, done + prev, sql, values, ForeignKeyDef(rel.constraint.value));
        assert done + prev + [ForeignKeyDef(rel.constraint.value)] == done + (prev + [ForeignKeyDef(rel.constraint.value)]);
        sql := sql + csql + ",";
        values := values + vars;
      } else {
        assert prev + [] == prev;
      }
    }
    FullPrefix(s.relationships);
  }

  lemma ForeignKeyEntriesSnoc(rels: seq<Relationship>, i: nat)
    requires i < |rels|
    ensures ForeignKeyEntries(rels[..i + 1]) == ForeignKeyEntries(rels[..i])
              + (if rels[i].constraint.Some? then [ForeignKeyDef(rels[i].constraint.value)] else [])
  {
    assert rels[..i + 1][..i] == rels[..i];
  }

  /** The check loop: "CONSTRAINT ? CHECK ?," with the check's name and expression, per check. */
  method AppendChecks(cfg: Config, s: Schema, ghost done: seq<Entry>, sql0: string, values0: seq<Value>)
    returns (sql: string, values: seq<Value>)
    requires Assembled(cfg, s.table, done, sql0, values0)
    ensures Assembled(cfg, s.table, done + CheckEntries(s.checks), sql, values)
  {
    sql, values := sql0, values0;
    ghost var chks := CheckEntries(s.checks);
    assert done + chks[..0] == done;
    for i := 0 to |s.checks|
      invariant Assembled(cfg, s.table, done + chks[..i], sql, values)
    {
      var chk := s.checks[i];
      AssembledStep(cfg, s.table, done + chks[..i], sql, values, chks[i]);
      PrefixSnoc(chks, i);
      assert done + chks[..i + 1] == done + chks[..i] + [chks[i]];
      sql := sql + "CONSTRAINT ? CHECK ?,";
      values := values + [ColumnValue(NamedColumn(chk.name)), ExprValue(Expr(chk.constraint))];
    }
    FullPrefix(chks);
  }

  /** The body of the column loop: "? ?", the modifiers, the comma, and their values. */
  method BuildColumn(cfg: Config, dbName: string, field: Field) returns (sql: string, values: seq<Value>)
    ensures Stmt(sql, values) == Fragment(cfg, ColumnDef(dbName, field))
  {
    sql := "? ?";
    values := [ColumnValue(NamedColumn(dbName)), ExprValue(Expr(DataTypeOf(cfg, field)))];
    ghost var head := sql;
    if field.autoIncrement {
      sql := sql + " AUTO_INCREMENT";
    }
    assert sql == head + AutoIncrementWord(field);
    if field.notNull {
      sql := sql + " NOT NULL";
    }
    assert sql == head + AutoIncrementWord(field) + NotNullWord(field);
    if field.unique {
      sql := sql + " UNIQUE";
    }
    assert sql == head + AutoIncrementWord(field) + NotNullWord(field) + UniqueWord(field);
    if field.defaultValue != "" {
      sql := sql + " DEFAULT ?";
      values := values + [ExprValue(Expr(field.defaultValue))];
    }
    assert sql == head + AutoIncrementWord(field) + NotNullWord(field) + UniqueWord(field) + DefaultWord(field);
    ModifiersAfter(head, field);
    sql := sql + ",";
  }

  lemma ModifiersAfter(head: string, field: Field)
    ensures head + AutoIncrementWord(field) + NotNullWord(field) + UniqueWord(field) + DefaultWord(field)
            == head + Modifiers(field)
  {
  }
}
