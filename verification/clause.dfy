/**
 * Clause composition: the Clause record and its default rendering
 * (clause/clause.go) and the LIMIT clause with its merge rule
 * (clause/limit.go).
 *
 * The Build code of Expr, Column, Table and of every other clause
 * expression lives outside these two files, and so does every custom
 * ClauseBuilder. Their output is therefore abstract: the Builder carries
 * `render` and `custom`, which say what each of them writes.
 */
module Clause {
  import opened Wrappers
  import opened Strings

  // ---------------------------------------------------------------------
  // Records and sentinels (clause/clause.go:59-82)
  // ---------------------------------------------------------------------

  /** A column reference; Raw asks the builder not to quote the name. */
  datatype Column = Column(table: string, name: string, alias: string, raw: bool)

  /** A table reference; Raw asks the builder not to quote the name. */
  datatype Table = Table(name: string, alias: string, raw: bool)

  /** Sentinel names resolved later against the statement being built. */
  const PrimaryKey: string := "@@@priamry_key@@@"
  const CurrentTable: string := "@@@table@@@"

  const currentTable: Table := Table(CurrentTable, "", false)
  const PrimaryColumn: Column := Column(CurrentTable, PrimaryKey, "", false)

  /** `clause.Column{Name: name}`, the only form the migrator builds. */
  function NamedColumn(name: string): Column { Column("", name, "", false) }

  /** `clause.Table{Name: name}`, the only form the migrator builds. */
  function NamedTable(name: string): Table { Table(name, "", false) }

  // ---------------------------------------------------------------------
  // Expressions, bound values and the Builder sink (clause/clause.go:15-22)
  // ---------------------------------------------------------------------

  /**
   * The expressions a clause can hold: a raw SQL fragment (`Expr`), a
   * LIMIT, or any other clause expression (WHERE, ORDER BY, ...) whose
   * Build lies outside this model, told apart by `id`.
   */
  datatype Expression =
    | Expr(sql: string)
    | LimitExpr(limit: Limit)
    | Other(id: nat)

  /** A value bound to a `?` marker: a scalar, a reference, an expression or a list. */
  datatype Value =
    | Str(s: string)
    | TableValue(table: Table)
    | ColumnValue(column: Column)
    | ExprValue(expr: Expression)
    | List(items: seq<Value>)

  /** What a piece of Build code writes: text, and the values it binds. */
  datatype Output = Output(sql: string, vars: seq<Value>)

  /** Identifies one custom ClauseBuilder implementation. */
  datatype ClauseBuilder = ClauseBuilder(id: nat)

  /**
   * The statement being built: the text written so far and the values
   * bound so far. `render` is what Build writes for an expression defined
   * outside clause.go and limit.go; `custom` is what a custom ClauseBuilder
   * writes for the clause it is given.
   */
  class Builder {
    const render: Expression -> Output
    const custom: (ClauseBuilder, Clause) -> Output
    var sql: string
    var vars: seq<Value>

    constructor (render: Expression -> Output, custom: (ClauseBuilder, Clause) -> Output)
      ensures this.render == render && this.custom == custom
      ensures sql == [] && vars == []
    {
      this.render := render;
      this.custom := custom;
      sql := [];
      vars := [];
    }

    method WriteByte(c: char)
      modifies this
      ensures sql == old(sql) + [c] && vars == old(vars)
    {
      sql := sql + [c];
    }

    method Write(s: string)
      modifies this
      ensures sql == old(sql) + s && vars == old(vars)
    {
      sql := sql + s;
    }

    /** Runs Build code this model does not see, which writes `o`. */
    method Emit(o: Output)
      modifies this
      ensures sql == old(sql) + o.sql && vars == old(vars) + o.vars
    {
      sql := sql + o.sql;
      vars := vars + o.vars;
    }
  }

  /** What `e.Build(builder)` writes: LIMIT is rendered here, the rest by `render`. */
  function ExpressionOutput(e: Expression, render: Expression -> Output): Output
  {
    match e
    case LimitExpr(l) => Output(l.Text(), [])
    case _ => render(e)
  }

  method BuildExpression(e: Expression, b: Builder)
    modifies b
    ensures b.sql == old(b.sql) + ExpressionOutput(e, b.render).sql
    ensures b.vars == old(b.vars) + ExpressionOutput(e, b.render).vars
  {
    match e
    case LimitExpr(l) => l.Build(b);
    case _ => b.Emit(b.render(e));
  }

  /**
   * The rendering of a list of expressions, one after another, with one
   * space between neighbours and none at either end.
   */
  function Render(es: seq<Expression>, render: Expression -> Output): Output
  {
    if |es| == 0 then Output([], [])
    else if |es| == 1 then ExpressionOutput(es[0], render)
    else
      var init := Render(es[..|es| - 1], render);
      var last := ExpressionOutput(es[|es| - 1], render);
      Output(init.sql + " " + last.sql, init.vars + last.vars)
  }

  lemma RenderSnoc(es: seq<Expression>, e: Expression, render: Expression -> Output)
    ensures es == [] ==> Render(es + [e], render) == ExpressionOutput(e, render)
    ensures es != [] ==> Render(es + [e], render).sql == Render(es, render).sql + " " + ExpressionOutput(e, render).sql
    ensures es != [] ==> Render(es + [e], render).vars == Render(es, render).vars + ExpressionOutput(e, render).vars
  {
    assert (es + [e])[..|es|] == es;
  }

  /** The loop of the default rendering: a space before every piece but the first. */
  method BuildPieces(all: seq<Expression>, b: Builder)
    modifies b
    ensures b.sql == old(b.sql) + Render(all, b.render).sql
    ensures b.vars == old(b.vars) + Render(all, b.render).vars
  {
    for idx := 0 to |all|
      invariant b.sql == old(b.sql) + Render(all[..idx], b.render).sql
      invariant b.vars == old(b.vars) + Render(all[..idx], b.render).vars
    {
      RenderSnoc(all[..idx], all[idx], b.render);
      assert all[..idx] + [all[idx]] == all[..idx + 1];
      if idx != 0 {
        b.WriteByte(' ');
      }
      BuildExpression(all[idx], b);
    }
    assert all[..|all|] == all;
  }

  /** Spaces written by the expressions themselves. */
  function SpacesWithin(es: seq<Expression>, render: Expression -> Output): nat
  {
    if es == [] then 0
    else SpacesWithin(es[..|es| - 1], render) + Count(' ', ExpressionOutput(es[|es| - 1], render).sql)
  }

  /** Total text written by the expressions themselves. */
  function LengthWithin(es: seq<Expression>, render: Expression -> Output): nat
  {
    if es == [] then 0
    else LengthWithin(es[..|es| - 1], render) + |ExpressionOutput(es[|es| - 1], render).sql|
  }

  /**
   * n rendered pieces are separated by exactly n - 1 spaces: the text is as
   * long as the pieces plus n - 1, and every space beyond the pieces' own is
   * a separator.
   */
  lemma {:induction false} RenderSeparators(es: seq<Expression>, render: Expression -> Output)
    requires |es| > 0
    ensures |Render(es, render).sql| == LengthWithin(es, render) + |es| - 1
    ensures Count(' ', Render(es, render).sql) == SpacesWithin(es, render) + |es| - 1
  {
    var init := es[..|es| - 1];
    var last := ExpressionOutput(es[|es| - 1], render).sql;
    if |es| == 1 {
      assert init == [];
    } else {
      RenderSeparators(init, render);
      var r := Render(init, render).sql;
      CountAppend(' ', r, " ");
      CountAppend(' ', r + " ", last);
    }
  }

  /** Nothing is written before the first piece or after the last one. */
  lemma {:induction false} RenderEnds(es: seq<Expression>, render: Expression -> Output)
    requires |es| > 0
    ensures HasPrefix(Render(es, render).sql, ExpressionOutput(es[0], render).sql)
    ensures HasSuffix(Render(es, render).sql, ExpressionOutput(es[|es| - 1], render).sql)
  {
    if |es| > 1 {
      RenderEnds(es[..|es| - 1], render);
      var r := Render(es[..|es| - 1], render).sql;
      var first := ExpressionOutput(es[0], render).sql;
      assert (r + " " + ExpressionOutput(es[|es| - 1], render).sql)[..|first|] == r[..|first|];
    }
  }

  /** Rendering two non-empty runs one after the other puts one space between them. */
  lemma {:induction false} RenderAppend(a: seq<Expression>, b: seq<Expression>, render: Expression -> Output)
    requires |a| > 0 && |b| > 0
    ensures Render(a + b, render).sql == Render(a, render).sql + " " + Render(b, render).sql
    ensures Render(a + b, render).vars == Render(a, render).vars + Render(b, render).vars
    decreases |b|
  {
    var ab := a + b;
    assert ab[..|ab| - 1] == a + b[..|b| - 1];
    if |b| > 1 {
      RenderAppend(a, b[..|b| - 1], render);
    } else {
      assert ab[..|ab| - 1] == a;
    }
  }

  // ---------------------------------------------------------------------
  // Clause (clause/clause.go:24-57)
  // ---------------------------------------------------------------------

  /**
   * A named clause with its five slots. `builder`, when present, replaces
   * the default rendering altogether. Priority is not modelled.
   */
  datatype Clause = Clause(
    name: string,
    beforeExpressions: seq<Expression>,
    afterNameExpressions: seq<Expression>,
    afterExpressions: seq<Expression>,
    expression: Option<Expression>,
    builder: Option<ClauseBuilder>)
  {
    /** The name token, present only for a non-empty name. */
    function NameToken(): seq<Expression>
    {
      if name != "" then [Expr(name)] else []
    }

    /** The primary expression, present only when set. */
    function ExpressionSlot(): seq<Expression>
    {
      if expression.Some? then [expression.value] else []
    }

    /**
     * The pieces the default rendering writes, in order: before-expressions,
     * the name token, after-name expressions, the primary expression and
     * after-expressions.
     */
    function Pieces(): (p: seq<Expression>)
      ensures |p| == |beforeExpressions| + |afterNameExpressions| + |afterExpressions|
                     + (if name != "" then 1 else 0) + (if expression.Some? then 1 else 0)
      ensures p[..|beforeExpressions|] == beforeExpressions
      ensures name != "" ==> p[|beforeExpressions|] == Expr(name)
      ensures p[|beforeExpressions| + |NameToken()|..|beforeExpressions| + |NameToken()| + |afterNameExpressions|]
              == afterNameExpressions
      ensures expression.Some? ==> p[|p| - |afterExpressions| - 1] == expression.value
      ensures p[|p| - |afterExpressions|..] == afterExpressions
    {
      var head := beforeExpressions + NameToken();
      var middle := head + afterNameExpressions;
      var p := middle + ExpressionSlot() + afterExpressions;
      assert p[..|head|] == head && head[..|beforeExpressions|] == beforeExpressions;
      assert p[|head|..|middle|] == afterNameExpressions;
      p
    }

    /** What Build writes: the custom builder's output, or the pieces separated by spaces. */
    function Rendered(render: Expression -> Output, custom: (ClauseBuilder, Clause) -> Output): Output
    {
      if builder.Some? then custom(builder.value, this) else Render(Pieces(), render)
    }

    method Build(b: Builder)
      modifies b
      ensures builder.Some? ==> b.sql == old(b.sql) + b.custom(builder.value, this).sql
      ensures b.sql == old(b.sql) + Rendered(b.render, b.custom).sql
      ensures b.vars == old(b.vars) + Rendered(b.render, b.custom).vars
    {
      if builder.Some? {
        b.Emit(b.custom(builder.value, this));
      } else {
        var builders := beforeExpressions;
        if name != "" {
          builders := builders + [Expr(name)];
        }
        assert builders == beforeExpressions + NameToken();
        builders := builders + afterNameExpressions;
        ghost var middle := builders;
        if expression.Some? {
          builders := builders + [expression.value];
        }
        assert builders == middle + ExpressionSlot();
        var all := builders + afterExpressions;
        BuildPieces(all, b);
      }
    }
  }

  /** A clause with no expressions and no name writes nothing at all. */
  lemma EmptyClauseWritesNothing(c: Clause, render: Expression -> Output, custom: (ClauseBuilder, Clause) -> Output)
    requires c.builder.None? && c.name == "" && c.expression.None?
    requires c.beforeExpressions == [] && c.afterNameExpressions == [] && c.afterExpressions == []
    ensures c.Rendered(render, custom) == Output([], [])
  {
    assert c.Pieces() == [];
  }

  /**
   * With every slot filled, the default rendering is before-expressions,
   * name, after-name expressions, the expression and after-expressions, in
   * that order, each separated from the next by one space.
   */
  lemma {:induction false} DefaultRenderingOrder(c: Clause, render: Expression -> Output, custom: (ClauseBuilder, Clause) -> Output)
    requires c.builder.None? && c.name != "" && c.expression.Some?
    requires c.beforeExpressions != [] && c.afterNameExpressions != [] && c.afterExpressions != []
    ensures c.Rendered(render, custom).sql
         == Render(c.beforeExpressions, render).sql + " "
          + ExpressionOutput(Expr(c.name), render).sql + " "
          + Render(c.afterNameExpressions, render).sql + " "
          + ExpressionOutput(c.expression.value, render).sql + " "
          + Render(c.afterExpressions, render).sql
  {
    var b, n, an, e, af := c.beforeExpressions, [Expr(c.name)], c.afterNameExpressions, [c.expression.value], c.afterExpressions;
    assert c.Pieces() == (((b + n) + an) + e) + af;
    RenderAppend(b, n, render);
    RenderAppend(b + n, an, render);
    RenderAppend(b + n + an, e, render);
    RenderAppend(b + n + an + e, af, render);
  }

  // ---------------------------------------------------------------------
  // LIMIT (clause/limit.go)
  // ---------------------------------------------------------------------

  /** The LIMIT clause expression; zero in a field means "not set". */
  datatype Limit = Limit(limit: int, offset: int)
  {
    function Name(): string { "LIMIT" }

    /** What Build writes. */
    function Text(): string
    {
      if limit > 0 then
        "LIMIT " + Itoa(limit) + (if offset > 0 then " OFFSET " + Itoa(offset) else "")
      else ""
    }

    method Build(b: Builder)
      modifies b
      ensures b.sql == old(b.sql) + Text() && b.vars == old(b.vars)
    {
      if limit > 0 {
        b.Write("LIMIT ");
        b.Write(Itoa(limit));
        if offset > 0 {
          b.Write(" OFFSET ");
          b.Write(Itoa(offset));
        }
      }
    }

    /** The part of the limit that reaches the text: nothing, or LIMIT with an offset (0 for none). */
    function Effective(): Option<Limit>
    {
      if limit <= 0 then None else Some(Limit(limit, if offset > 0 then offset else 0))
    }

    /**
     * The limit after merging into a clause whose expression was `existing`:
     * each non-zero field of this limit is kept; a zero field takes the
     * existing Limit's value when that value is positive.
     */
    function FilledFrom(existing: Option<Expression>): (r: Limit)
      ensures limit != 0 ==> r.limit == limit
      ensures offset != 0 ==> r.offset == offset
      ensures limit == 0 ==> r.limit == (if PreviousLimit(existing).limit > 0 then PreviousLimit(existing).limit else 0)
      ensures offset == 0 ==> r.offset == (if PreviousLimit(existing).offset > 0 then PreviousLimit(existing).offset else 0)
    {
      var v := PreviousLimit(existing);
      Limit(if limit == 0 && v.limit > 0 then v.limit else limit,
            if offset == 0 && v.offset > 0 then v.offset else offset)
    }

    /** The clause after this limit has been merged into it. */
    function MergedInto(clause: Clause): (r: Clause)
      ensures r.name == ""
      ensures r.expression == Some(LimitExpr(FilledFrom(clause.expression)))
      ensures r.(name := clause.name, expression := clause.expression) == clause
    {
      clause.(name := "", expression := Some(LimitExpr(FilledFrom(clause.expression))))
    }

    /** MergeClause on the caller's Clause: `clause` is its value before, `merged` after. */
    method MergeClause(clause: Clause) returns (merged: Clause)
      ensures merged == MergedInto(clause)
    {
      merged := clause.(name := "");
      var l := this;
      if merged.expression.Some? && merged.expression.value.LimitExpr? {
        var v := merged.expression.value.limit;
        if l.limit == 0 && v.limit > 0 {
          l := l.(limit := v.limit);
        }
        if l.offset == 0 && v.offset > 0 {
          l := l.(offset := v.offset);
        }
      }
      merged := merged.(expression := Some(LimitExpr(l)));
    }
  }

  /** The Limit a clause's expression holds, or the zero Limit when it holds none. */
  function PreviousLimit(existing: Option<Expression>): Limit
  {
    if existing.Some? && existing.value.LimitExpr? then existing.value.limit else Limit(0, 0)
  }

  /** Reads back the text Build writes; the inverse of Limit.Text on its effective part. */
  function ParseLimitText(s: string): Option<Limit>
  {
    if |s| < 6 || s[..6] != "LIMIT " then None
    else
      var rest := s[6..];
      var k := DigitRun(rest);
      var n := DecimalValue(rest[..k]);
      var tail := rest[k..];
      if tail == [] then Some(Limit(n, 0))
      else if |tail| > 8 && tail[..8] == " OFFSET " && AllDigits(tail[8..]) then
        Some(Limit(n, DecimalValue(tail[8..])))
      else None
  }

  /** Build's text determines the effective limit and offset, and nothing else. */
  lemma LimitTextRoundTrip(l: Limit)
    ensures ParseLimitText(l.Text()) == l.Effective()
  {
    if l.limit > 0 {
      var d := Decimal(l.limit);
      var tail := if l.offset > 0 then " OFFSET " + Itoa(l.offset) else "";
      var s := l.Text();
      assert s == "LIMIT " + d + tail;
      assert s[6..] == d + tail;
      DigitRunOf(d, tail);
      assert s[6..][..|d|] == d;
      assert s[6..][|d|..] == tail;
      DecimalRoundTrip(l.limit);
      if l.offset > 0 {
        assert tail[8..] == Decimal(l.offset);
        DecimalRoundTrip(l.offset);
      }
    }
  }

  /** Two limits write the same text exactly when their effective parts agree. */
  lemma LimitTextInjective(a: Limit, b: Limit)
    ensures a.Text() == b.Text() <==> a.Effective() == b.Effective()
  {
    LimitTextRoundTrip(a);
    LimitTextRoundTrip(b);
  }

  /** Build writes nothing when Limit is not positive, whatever the offset. */
  lemma LimitBuildEmpty(l: Limit)
    ensures l.Text() == "" <==> l.limit <= 0
  {
  }

  /** A written LIMIT starts with the clause's name and carries OFFSET only for a positive offset. */
  lemma LimitTextShape(l: Limit)
    requires l.limit > 0
    ensures HasPrefix(l.Text(), l.Name() + " ")
    ensures Contains(l.Text(), " OFFSET ") <==> l.offset > 0
  {
    var d := Decimal(l.limit);
    var s := l.Text();
    assert s[..6] == "LIMIT ";
    if l.offset > 0 {
      assert s == ("LIMIT " + d) + (" OFFSET " + Itoa(l.offset));
      ContainsSuffix("LIMIT " + d, " OFFSET " + Itoa(l.offset), " OFFSET ");
    } else {
      assert s == "LIMIT " + d;
      NoOffsetIn(d);
    }
  }

  lemma {:induction false} ContainsSuffix(a: string, b: string, sub: string)
    requires HasPrefix(b, sub)
    ensures Contains(a + b, sub)
  {
    if a == [] {
      assert a + b == b;
    } else {
      assert (a + b)[1..] == a[1..] + b;
      ContainsSuffix(a[1..], b, sub);
    }
  }

  /** "LIMIT " followed by digits never contains " OFFSET ". */
  lemma NoOffsetIn(d: string)
    requires AllDigits(d)
    ensures !Contains("LIMIT " + d, " OFFSET ")
  {
    var s := "LIMIT " + d;
    NoOffsetFrom(s, 0);
  }

  lemma {:induction false} NoOffsetFrom(s: string, i: nat)
    requires |s| >= 6 && s[..6] == "LIMIT " && AllDigits(s[6..]) && i <= |s|
    ensures !Contains(s[i..], " OFFSET ")
    decreases |s| - i
  {
    if i < |s| {
      var t := s[i..];
      if |t| >= 2 {
        if i < 5 {
          assert t[0] == s[..6][i];
        } else if i == 5 {
          assert t[1] == s[6..][0];
        } else {
          assert t[0] == s[6..][i - 6];
        }
        assert t[0] != ' ' || t[1] != 'O';
      }
      assert !HasPrefix(t, " OFFSET ");
      assert t[1..] == s[i + 1..];
      NoOffsetFrom(s, i + 1);
    }
  }

  /** Merging the same Limit twice gives what merging it once gave. */
  lemma MergeIdempotent(l: Limit, c: Clause)
    ensures l.MergedInto(l.MergedInto(c)) == l.MergedInto(c)
  {
  }

  /** {Limit: 10} followed by {Offset: 5} ends as {10, 5}, whatever the clause held before. */
  lemma MergeFillsGaps(c: Clause)
    ensures Limit(0, 5).MergedInto(Limit(10, 0).MergedInto(c)).expression == Some(LimitExpr(Limit(10, 5)))
  {
  }

  /** A later non-zero limit replaces an earlier one. */
  lemma MergeLaterWins(c: Clause, first: Limit, second: Limit)
    requires second.limit != 0
    ensures second.MergedInto(first.MergedInto(c)).expression.value.limit.limit == second.limit
  {
  }

  /** When the clause holds no Limit, the incoming Limit is installed unchanged. */
  lemma MergeReplacesNonLimit(l: Limit, c: Clause)
    requires c.expression.None? || !c.expression.value.LimitExpr?
    ensures l.MergedInto(c).expression == Some(LimitExpr(l))
  {
  }

  /**
   * A merged clause has no name, so when it has no other expressions and
   * no custom builder it renders exactly the merged Limit's text.
   */
  lemma MergedClauseRendersOnlyLimit(l: Limit, c: Clause, render: Expression -> Output, custom: (ClauseBuilder, Clause) -> Output)
    requires c.builder.None?
    requires c.beforeExpressions == [] && c.afterNameExpressions == [] && c.afterExpressions == []
    ensures l.MergedInto(c).Rendered(render, custom) == Output(l.FilledFrom(c.expression).Text(), [])
  {
    assert l.MergedInto(c).Pieces() == [LimitExpr(l.FilledFrom(c.expression))];
  }
}
