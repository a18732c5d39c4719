/**
 * DDL statement assembly of the generic migrator (migrator/migrator.go):
 * the CREATE TABLE text and values, buildConstraint, BuildIndexOptions,
 * the CREATE INDEX text and DataTypeOf.
 *
 * A statement is a template whose `?` markers are bound, in order, to a
 * list of values. The dialect's column types, its identifier quoting and
 * the naming strategy are not visible here: they are functions the
 * configuration carries.
 */
module Ddl {
  import opened Wrappers
  import opened Strings
  import opened Clause
  import opened Schema

  /** What is handed to Exec: a `?` template and the values bound to its markers. */
  datatype Stmt = Stmt(sql: string, values: seq<Value>)

  function Join(a: Stmt, b: Stmt): Stmt
  {
    Stmt(a.sql + b.sql, a.values + b.values)
  }

  /** A statement whose markers match its values one for one. */
  predicate Balanced(st: Stmt)
  {
    Count('?', st.sql) == |st.values|
  }

  /** One marker in a template whose surrounding words have none. */
  lemma OneMarker(a: string, b: string)
    requires '?' !in a && '?' !in b
    ensures Count('?', a + "?" + b) == 1
  {
    CountAbsent('?', a);
    CountAbsent('?', b);
    CountAppend('?', a + "?", b);
    CountAppend('?', a, "?");
  }

  /** Two markers in a template whose words around them have none. */
  lemma TwoMarkers(a: string, b: string, c: string)
    requires '?' !in a && '?' !in b && '?' !in c
    ensures Count('?', a + "?" + b + "?" + c) == 2
  {
    CountAbsent('?', c);
    OneMarker(a, b);
    CountAppend('?', a + "?" + b + "?", c);
    CountAppend('?', a + "?" + b, "?");
  }

  /** Three markers in a template whose words around them have none. */
  lemma ThreeMarkers(a: string, b: string, c: string, d: string)
    requires '?' !in a && '?' !in b && '?' !in c && '?' !in d
    ensures Count('?', a + "?" + b + "?" + c + "?" + d) == 3
  {
    CountAbsent('?', d);
    TwoMarkers(a, b, c);
    CountAppend('?', a + "?" + b + "?" + c + "?", d);
    CountAppend('?', a + "?" + b + "?" + c, "?");
  }

  lemma ConcatAssociative(a: string, b: string, c: string)
    ensures a + b + c == a + (b + c)
  {
  }

  lemma JoinAssociative(a: Stmt, b: Stmt, c: Stmt)
    ensures Join(Join(a, b), c) == Join(a, Join(b, c))
  {
    assert (a.sql + b.sql) + c.sql == a.sql + (b.sql + c.sql);
    assert (a.values + b.values) + c.values == a.values + (b.values + c.values);
  }

  lemma JoinBalanced(a: Stmt, b: Stmt)
    requires Balanced(a) && Balanced(b)
    ensures Balanced(Join(a, b))
  {
    CountAppend('?', a.sql, b.sql);
  }

  /** The dialect's hooks: the column type of a field and identifier quoting (Statement.Quote). */
  datatype Dialector = Dialector(dataTypeOf: Field -> string, quote: string -> string)

  /**
   * The migrator's configuration: whether indexes are created after the
   * table rather than inline, the dialect, and the naming strategy's
   * ColumnName (table, column) used by RenameColumn.
   */
  datatype Config = Config(createIndexAfterCreateTable: bool, dialector: Dialector, columnName: (string, string) -> string)

  /** DataTypeOf: an explicit DBDataType is used verbatim, otherwise the dialect decides. */
  function DataTypeOf(cfg: Config, field: Field): string
  {
    if field.dbDataType != "" then field.dbDataType else cfg.dialector.dataTypeOf(field)
  }

  /**
   * Two configurations give a field the same type exactly when the field
   * carries its own DBDataType or their dialects agree on it.
   */
  lemma DataTypeOfDialects(c1: Config, c2: Config, field: Field)
    ensures DataTypeOf(c1, field) == DataTypeOf(c2, field) <==>
              field.dbDataType != "" || c1.dialector.dataTypeOf(field) == c2.dialector.dataTypeOf(field)
  {
  }

  /** `[]interface{}{clause.Column{Name: f.DBName}, ...}`: the columns of the fields, in order. */
  function Columns(fields: seq<Field>): (vs: seq<Value>)
    ensures |vs| == |fields|
    ensures forall i :: 0 <= i < |fields| ==> vs[i] == ColumnValue(NamedColumn(fields[i].dbName))
  {
    seq(|fields|, i requires 0 <= i < |fields| => ColumnValue(NamedColumn(fields[i].dbName)))
  }

  // ---------------------------------------------------------------------
  // buildConstraint (migrator/migrator.go:303-323)
  // ---------------------------------------------------------------------

  /** The fixed part of a foreign-key constraint: name, columns, referenced table and columns. */
  const ForeignKeyTemplate := "CONSTRAINT ? FOREIGN KEY ? REFERENCES ??"
  const OnDelete := " ON DELETE "
  /** The source writes two spaces after ON UPDATE. */
  const OnUpdate := " ON UPDATE  "

  /** The text of a foreign-key constraint. */
  function ConstraintSql(c: Constraint): string
  {
    ForeignKeyTemplate
      + (if c.onDelete != "" then OnDelete + c.onDelete else "")
      + (if c.onUpdate != "" then OnUpdate + c.onUpdate else "")
  }

  /** The values of a foreign-key constraint: its name, its columns, the referenced table and columns. */
  function ConstraintValues(c: Constraint): seq<Value>
  {
    [TableValue(NamedTable(c.name)), List(Columns(c.foreignKeys)),
     TableValue(NamedTable(c.referenceSchema)), List(Columns(c.references))]
  }

  /** No `?` in the referential actions, the only free text of a constraint. */
  predicate PlainActions(c: Constraint)
  {
    Count('?', c.onDelete) == 0 && Count('?', c.onUpdate) == 0
  }

  method BuildConstraint(c: Constraint) returns (sql: string, results: seq<Value>)
    ensures sql == ConstraintSql(c) && results == ConstraintValues(c)
  {
    sql := ForeignKeyTemplate;
    if c.onDelete != "" {
      sql := sql + OnDelete + c.onDelete;
    }
    if c.onUpdate != "" {
      sql := sql + OnUpdate + c.onUpdate;
    }
    var foreignKeys: seq<Value> := [];
    for i := 0 to |c.foreignKeys|
      invariant foreignKeys == Columns(c.foreignKeys[..i])
    {
      foreignKeys := foreignKeys + [ColumnValue(NamedColumn(c.foreignKeys[i].dbName))];
    }
    var references: seq<Value> := [];
    for i := 0 to |c.references|
      invariant references == Columns(c.references[..i])
    {
      references := references + [ColumnValue(NamedColumn(c.references[i].dbName))];
    }
    assert c.foreignKeys[..|c.foreignKeys|] == c.foreignKeys;
    assert c.references[..|c.references|] == c.references;
    results := [TableValue(NamedTable(c.name)), List(foreignKeys), TableValue(NamedTable(c.referenceSchema)), List(references)];
  }

  /**
   * A constraint binds exactly four values, in order: its name, its
   * foreign-key columns, the referenced table and the referenced columns;
   * its text starts with the fixed template and, with plain referential
   * actions, has one marker per value.
   */
  lemma ConstraintShape(c: Constraint)
    ensures |ConstraintValues(c)| == 4
    ensures ConstraintValues(c)[0] == TableValue(NamedTable(c.name))
    ensures ConstraintValues(c)[2] == TableValue(NamedTable(c.referenceSchema))
    ensures ConstraintValues(c)[1].List? && |ConstraintValues(c)[1].items| == |c.foreignKeys|
    ensures forall i :: 0 <= i < |c.foreignKeys| ==>
              ConstraintValues(c)[1].items[i] == ColumnValue(NamedColumn(c.foreignKeys[i].dbName))
    ensures ConstraintValues(c)[3].List? && |ConstraintValues(c)[3].items| == |c.references|
    ensures forall i :: 0 <= i < |c.references| ==>
              ConstraintValues(c)[3].items[i] == ColumnValue(NamedColumn(c.references[i].dbName))
    ensures HasPrefix(ConstraintSql(c), ForeignKeyTemplate)
    ensures PlainActions(c) ==> Count('?', ConstraintSql(c)) == |ConstraintValues(c)|
  {
    var base := ForeignKeyTemplate;
    var del := if c.onDelete != "" then OnDelete + c.onDelete else "";
    var upd := if c.onUpdate != "" then OnUpdate + c.onUpdate else "";
    assert ConstraintSql(c) == base + (del + upd);
    PrefixOfConcat(base, del + upd);
    if PlainActions(c) {
      ConstraintMarkers(c);
    }
  }

  lemma ConstraintMarkers(c: Constraint)
    requires PlainActions(c)
    ensures Count('?', ConstraintSql(c)) == 4
  {
    var base := ForeignKeyTemplate;
    var del := if c.onDelete != "" then OnDelete + c.onDelete else "";
    var upd := if c.onUpdate != "" then OnUpdate + c.onUpdate else "";
    assert ConstraintSql(c) == base + del + upd;
    CountAppend('?', base + del, upd);
    CountAppend('?', base, del);
    CountAppend('?', OnDelete, c.onDelete);
    CountAppend('?', OnUpdate, c.onUpdate);
    ActionTemplateMarkers();
    ConstraintTemplateMarkers();
  }

  lemma ActionTemplateMarkers()
    ensures Count('?', OnDelete) == 0 && Count('?', OnUpdate) == 0
  {
    CountAbsent('?', OnDelete);
    CountAbsent('?', OnUpdate);
  }

  lemma ConstraintTemplateMarkers()
    ensures Count('?', ForeignKeyTemplate) == 4
  {
    ConstraintTemplatePieces();
    FourMarkers("CONSTRAINT ", " FOREIGN KEY ", " REFERENCES ");
  }

  lemma ConstraintTemplatePieces()
    ensures ForeignKeyTemplate == "CONSTRAINT " + "?" + " FOREIGN KEY " + "?" + " REFERENCES " + "??"
  {
  }

  /** Four markers in a template whose words between them have none. */
  lemma FourMarkers(a: string, b: string, c: string)
    requires '?' !in a && '?' !in b && '?' !in c
    ensures Count('?', a + "?" + b + "?" + c + "??") == 4
  {
    CountAbsent('?', a);
    CountAbsent('?', b);
    CountAbsent('?', c);
    CountAppend('?', a + "?" + b + "?" + c, "??");
    CountAppend('?', a + "?" + b + "?", c);
    CountAppend('?', a + "?" + b, "?");
    CountAppend('?', a + "?", b);
    CountAppend('?', a, "?");
  }

  /**
   * The referential actions follow the template in the order ON DELETE,
   * then ON UPDATE, each only when set: an unset action leaves no clause.
   */
  lemma ConstraintActions(c: Constraint)
    ensures c.onDelete == "" && c.onUpdate == "" ==> ConstraintSql(c) == ForeignKeyTemplate
    ensures c.onDelete != "" ==> HasPrefix(ConstraintSql(c), ForeignKeyTemplate + OnDelete + c.onDelete)
    ensures c.onUpdate != "" ==> HasSuffix(ConstraintSql(c), OnUpdate + c.onUpdate)
    ensures c.onDelete == "" ==>
              ConstraintSql(c) == ForeignKeyTemplate + (if c.onUpdate != "" then OnUpdate + c.onUpdate else "")
    ensures c.onUpdate == "" ==>
              ConstraintSql(c) == ForeignKeyTemplate + (if c.onDelete != "" then OnDelete + c.onDelete else "")
    ensures HasPrefix(ConstraintSql(c), ForeignKeyTemplate + OnDelete) <==> c.onDelete != ""
  {
    NoActions(c);
    DeleteFirst(c);
    UpdateLast(c);
    UnsetAction(c);
    DeleteClauseOnlyWhenSet(c);
  }

  lemma UnsetAction(c: Constraint)
    ensures c.onDelete == "" ==>
              ConstraintSql(c) == ForeignKeyTemplate + (if c.onUpdate != "" then OnUpdate + c.onUpdate else "")
    ensures c.onUpdate == "" ==>
              ConstraintSql(c) == ForeignKeyTemplate + (if c.onDelete != "" then OnDelete + c.onDelete else "")
  {
    assert ForeignKeyTemplate + "" == ForeignKeyTemplate;
    var upd := if c.onUpdate != "" then OnUpdate + c.onUpdate else "";
    var del := if c.onDelete != "" then OnDelete + c.onDelete else "";
    assert (ForeignKeyTemplate + del) + "" == ForeignKeyTemplate + del;
  }

  /** The text starts with the template and ON DELETE exactly when an ON DELETE action is set. */
  lemma DeleteClauseOnlyWhenSet(c: Constraint)
    ensures HasPrefix(ConstraintSql(c), ForeignKeyTemplate + OnDelete) <==> c.onDelete != ""
  {
    var sql := ConstraintSql(c);
    var n := |ForeignKeyTemplate|;
    if c.onDelete != "" {
      DeleteFirst(c);
      PrefixOfConcat(ForeignKeyTemplate + OnDelete, c.onDelete);
      PrefixTransitive(sql, ForeignKeyTemplate + OnDelete + c.onDelete, ForeignKeyTemplate + OnDelete);
    } else if c.onUpdate != "" {
      UnsetAction(c);
      assert sql[n + 4] == 'U';
      assert (ForeignKeyTemplate + OnDelete)[n + 4] == 'D';
    } else {
      NoActions(c);
    }
  }

  lemma NoActions(c: Constraint)
    ensures c.onDelete == "" && c.onUpdate == "" ==> ConstraintSql(c) == ForeignKeyTemplate
  {
    assert ForeignKeyTemplate + "" + "" == ForeignKeyTemplate;
  }

  lemma DeleteFirst(c: Constraint)
    ensures c.onDelete != "" ==> HasPrefix(ConstraintSql(c), ForeignKeyTemplate + OnDelete + c.onDelete)
  {
    var upd := if c.onUpdate != "" then OnUpdate + c.onUpdate else "";
    if c.onDelete != "" {
      assert ConstraintSql(c) == (ForeignKeyTemplate + OnDelete + c.onDelete) + upd;
      PrefixOfConcat(ForeignKeyTemplate + OnDelete + c.onDelete, upd);
    }
  }

  lemma UpdateLast(c: Constraint)
    ensures c.onUpdate != "" ==> HasSuffix(ConstraintSql(c), OnUpdate + c.onUpdate)
  {
    var del := if c.onDelete != "" then OnDelete + c.onDelete else "";
    if c.onUpdate != "" {
      assert ConstraintSql(c) == (ForeignKeyTemplate + del) + (OnUpdate + c.onUpdate);
      SuffixOfConcat(ForeignKeyTemplate + del, OnUpdate + c.onUpdate);
    }
  }

  lemma PrefixOfConcat(a: string, b: string)
    ensures HasPrefix(a + b, a)
  {
    assert (a + b)[..|a|] == a;
  }

  lemma SuffixOfConcat(a: string, b: string)
    ensures HasSuffix(a + b, b)
  {
    assert (a + b)[|a|..] == b;
  }

  // ---------------------------------------------------------------------
  // BuildIndexOptions (migrator/migrator.go:385-404)
  // ---------------------------------------------------------------------

  /** The text of one index column: its head, then the optional collation and sort direction. */
  function IndexOptionText(quote: string -> string, opt: IndexOption): string
  {
    IndexOptionHead(quote, opt)
      + (if opt.collate != "" then " COLLATE " + opt.collate else "")
      + (if opt.sort != "" then " " + opt.sort else "")
  }

  /** The expression when there is one, otherwise the quoted column with "(length)" when the length is positive. */
  function IndexOptionHead(quote: string -> string, opt: IndexOption): string
  {
    if opt.expression != "" then opt.expression
    else if opt.length > 0 then quote(opt.field.dbName) + "(" + Itoa(opt.length) + ")"
    else quote(opt.field.dbName)
  }

  function IndexOptionValues(quote: string -> string, opts: seq<IndexOption>): (vs: seq<Value>)
    ensures |vs| == |opts|
  {
    if opts == [] then []
    else IndexOptionValues(quote, opts[..|opts| - 1]) + [ExprValue(Expr(IndexOptionText(quote, opts[|opts| - 1])))]
  }

  method BuildIndexOptions(d: Dialector, opts: seq<IndexOption>) returns (results: seq<Value>)
    ensures results == IndexOptionValues(d.quote, opts)
  {
    results := [];
    for i := 0 to |opts|
      invariant results == IndexOptionValues(d.quote, opts[..i])
    {
      var str := BuildIndexOption(d, opts[i]);
      IndexOptionValuesSnoc(d.quote, opts, i);
      results := results + [ExprValue(Expr(str))];
    }
    assert opts[..|opts|] == opts;
  }

  /** The body of BuildIndexOptions' loop: the text of one index column. */
  method BuildIndexOption(d: Dialector, opt: IndexOption) returns (str: string)
    ensures str == IndexOptionText(d.quote, opt)
  {
    str := d.quote(opt.field.dbName);
    if opt.expression != "" {
      str := opt.expression;
    } else if opt.length > 0 {
      str := str + "(" + Itoa(opt.length) + ")";
    }
    if opt.collate != "" {
      str := str + " COLLATE " + opt.collate;
    }
    if opt.sort != "" {
      str := str + " " + opt.sort;
    }
  }

  lemma IndexOptionValuesSnoc(quote: string -> string, opts: seq<IndexOption>, i: nat)
    requires i < |opts|
    ensures IndexOptionValues(quote, opts[..i + 1]) == IndexOptionValues(quote, opts[..i]) + [ExprValue(Expr(IndexOptionText(quote, opts[i])))]
  {
    assert opts[..i + 1][..i] == opts[..i];
  }

  /**
   * An index column starts with its expression when it has one, and
   * otherwise with the quoted column, followed by "(length)" exactly when
   * the length is positive; a sort direction, when set, ends the text.
   */
  lemma IndexOptionShape(quote: string -> string, opt: IndexOption)
    ensures opt.expression != "" ==> HasPrefix(IndexOptionText(quote, opt), opt.expression)
    ensures opt.expression == "" && opt.length > 0 ==>
              HasPrefix(IndexOptionText(quote, opt), quote(opt.field.dbName) + "(" + Itoa(opt.length) + ")")
    ensures opt.expression == "" ==> HasPrefix(IndexOptionText(quote, opt), quote(opt.field.dbName))
    ensures opt.sort != "" ==> HasSuffix(IndexOptionText(quote, opt), " " + opt.sort)
    ensures opt.expression == "" && opt.length <= 0 ==>
              IndexOptionText(quote, opt) == quote(opt.field.dbName)
                + (if opt.collate != "" then " COLLATE " + opt.collate else "")
                + (if opt.sort != "" then " " + opt.sort else "")
  {
    var head := IndexOptionHead(quote, opt);
    var coll := if opt.collate != "" then " COLLATE " + opt.collate else "";
    var sort := if opt.sort != "" then " " + opt.sort else "";
    HeadPrefix(head, coll, sort);
    if opt.expression == "" && opt.length > 0 {
      PrefixOfConcat(quote(opt.field.dbName), "(" + Itoa(opt.length) + ")");
      PrefixTransitive(IndexOptionText(quote, opt), head, quote(opt.field.dbName));
    }
    SuffixOfConcat(head + coll, sort);
  }

  lemma HeadPrefix(head: string, mid: string, tail: string)
    ensures HasPrefix(head + mid + tail, head)
  {
    assert head + mid + tail == head + (mid + tail);
    PrefixOfConcat(head, mid + tail);
  }

  lemma PrefixTransitive(s: string, p: string, q: string)
    requires HasPrefix(s, p) && HasPrefix(p, q)
    ensures HasPrefix(s, q)
  {
    assert s[..|q|] == p[..|q|];
  }

  // ---------------------------------------------------------------------
  // The CREATE INDEX text (migrator/migrator.go:415-434)
  // ---------------------------------------------------------------------

  /** CREATE [class] INDEX ? ON ?? [COMMENT ?] [USING type], bound to name, table, columns [, comment]. */
  function IndexStmt(d: Dialector, table: string, idx: Index): Stmt
  {
    Stmt("CREATE " + (IndexClassWord(idx) + IndexTail(idx)),
         [ColumnValue(NamedColumn(idx.name)), TableValue(NamedTable(table)), List(IndexOptionValues(d.quote, idx.fields))]
           + (if idx.comment != "" then [Str(idx.comment)] else []))
  }

  /** The optional class keyword (UNIQUE, FULLTEXT, ...) and its separating space. */
  function IndexClassWord(idx: Index): string
  {
    if idx.indexClass != "" then idx.indexClass + " " else ""
  }

  /** The text after the class: the fixed markers, then the optional COMMENT and USING parts. */
  function IndexTail(idx: Index): string
  {
    "INDEX ? ON ??" + (if idx.comment != "" then " COMMENT ?" else "")
      + (if idx.indexType != "" then " USING " + idx.indexType else "")
  }

  /** CreateIndex's statement for a found index, built as the source builds it. */
  method BuildCreateIndex(d: Dialector, table: string, idx: Index) returns (sql: string, values: seq<Value>)
    ensures Stmt(sql, values) == IndexStmt(d, table, idx)
  {
    var opts := BuildIndexOptions(d, idx.fields);
    values := [ColumnValue(NamedColumn(idx.name)), TableValue(NamedTable(table)), List(opts)];
    sql := "CREATE ";
    if idx.indexClass != "" {
      sql := sql + idx.indexClass + " ";
    }
    ghost var head := sql;
    assert head == "CREATE " + IndexClassWord(idx);
    ghost var tail := "INDEX ? ON ??";
    sql := sql + "INDEX ? ON ??";
    if idx.comment != "" {
      values := values + [Str(idx.comment)];
      ConcatAssociative(head, tail, " COMMENT ?");
      sql, tail := sql + " COMMENT ?", tail + " COMMENT ?";
    }
    if idx.indexType != "" {
      ConcatAssociative(head, tail, " USING " + idx.indexType);
      sql, tail := sql + (" USING " + idx.indexType), tail + (" USING " + idx.indexType);
    }
    assert tail == IndexTail(idx);
    ConcatAssociative("CREATE ", IndexClassWord(idx), tail);
  }

  /** No `?` in the index class and type, the only free text of the statement. */
  predicate PlainIndex(idx: Index)
  {
    Count('?', idx.indexClass) == 0 && Count('?', idx.indexType) == 0
  }

  /**
   * CREATE INDEX binds the index name, the table and the column list, then
   * the comment exactly when there is one; with a plain class and type it
   * has one marker per value.
   */
  lemma IndexStmtShape(d: Dialector, table: string, idx: Index)
    ensures |IndexStmt(d, table, idx).values| == (if idx.comment != "" then 4 else 3)
    ensures IndexStmt(d, table, idx).values[0] == ColumnValue(NamedColumn(idx.name))
    ensures IndexStmt(d, table, idx).values[1] == TableValue(NamedTable(table))
    ensures IndexStmt(d, table, idx).values[2] == List(IndexOptionValues(d.quote, idx.fields))
    ensures idx.comment != "" ==> IndexStmt(d, table, idx).values[3] == Str(idx.comment)
    ensures HasPrefix(IndexStmt(d, table, idx).sql, "CREATE " + IndexClassWord(idx) + "INDEX ? ON ??")
    ensures PlainIndex(idx) ==> Balanced(IndexStmt(d, table, idx))
  {
    IndexTextShape(idx);
    if PlainIndex(idx) {
      IndexMarkers(idx);
    }
  }

  lemma IndexTextShape(idx: Index)
    ensures HasPrefix("CREATE " + (IndexClassWord(idx) + IndexTail(idx)), "CREATE " + IndexClassWord(idx) + "INDEX ? ON ??")
  {
    var rest := (if idx.comment != "" then " COMMENT ?" else "")
                + (if idx.indexType != "" then " USING " + idx.indexType else "");
    assert "CREATE " + (IndexClassWord(idx) + IndexTail(idx)) == ("CREATE " + IndexClassWord(idx) + "INDEX ? ON ??") + rest;
    PrefixOfConcat("CREATE " + IndexClassWord(idx) + "INDEX ? ON ??", rest);
  }

  lemma IndexMarkers(idx: Index)
    requires PlainIndex(idx)
    ensures Count('?', "CREATE " + (IndexClassWord(idx) + IndexTail(idx))) == (if idx.comment != "" then 4 else 3)
  {
    CountAppend('?', "CREATE ", IndexClassWord(idx) + IndexTail(idx));
    CountAppend('?', IndexClassWord(idx), IndexTail(idx));
    IndexTemplateMarkers();
    if idx.indexClass != "" {
      CountAppend('?', idx.indexClass, " ");
    }
    IndexTailMarkers(idx);
  }

  lemma IndexTemplateMarkers()
    ensures Count('?', "CREATE ") == 0 && Count('?', " ") == 0 && Count('?', " USING ") == 0
    ensures Count('?', "INDEX ? ON ??") == 3 && Count('?', " COMMENT ?") == 1
  {
    CountAbsent('?', "CREATE ");
    CountAbsent('?', " USING ");
    CountAbsent('?', "INDEX ");
    CountAbsent('?', " ON ");
    assert "INDEX ? ON ??" == "INDEX " + ("?" + (" ON " + "??"));
    CountAppend('?', " ON ", "??");
    CountAppend('?', "?", " ON " + "??");
    CountAppend('?', "INDEX ", "?" + (" ON " + "??"));
    assert " COMMENT ?" == " COMMENT " + "?" + "";
    OneMarker(" COMMENT ", "");
  }

  lemma IndexTailMarkers(idx: Index)
    requires Count('?', idx.indexType) == 0
    ensures Count('?', IndexTail(idx)) == (if idx.comment != "" then 4 else 3)
  {
    var com := if idx.comment != "" then " COMMENT ?" else "";
    var use := if idx.indexType != "" then " USING " + idx.indexType else "";
    CountAppend('?', "INDEX ? ON ??" + com, use);
    CountAppend('?', "INDEX ? ON ??", com);
    IndexTemplateMarkers();
    if idx.indexType != "" {
      CountAppend('?', " USING ", idx.indexType);
    }
  }
}
