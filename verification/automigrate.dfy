/**
 * AutoMigrate's decisions (migrator/migrator.go:48-100) against an abstract
 * catalog: the tables, columns and constraints the database has, probed by
 * HasTable, HasColumn and HasConstraint, and the creations AutoMigrate
 * asks for, recorded as actions. The SQL of CreateTable and AddColumn is
 * modelled in the Migrator module; CreateConstraint's is not part of this
 * model, so an action records only the constraint's name.
 */
module AutoMigrate {
  import opened Wrappers
  import opened Schema
  import opened Reorder

  datatype Action =
    | CreateTableAction(table: string)
    | AddColumnAction(table: string, column: string)
    | CreateConstraintAction(table: string, name: string)

  /** What the database has, and what has been asked of it so far. */
  datatype State = State(
    tables: set<string>,
    columns: set<(string, string)>,
    constraints: set<(string, string)>,
    actions: seq<Action>)

  // ---------------------------------------------------------------------
  // One creation each
  // ---------------------------------------------------------------------

  function CreateTableStep(st: State, table: string): (r: State)
    ensures r.tables == st.tables + {table} && r.columns == st.columns && r.constraints == st.constraints
    ensures r.actions == st.actions + [CreateTableAction(table)]
  {
    st.(tables := st.tables + {table}, actions := st.actions + [CreateTableAction(table)])
  }

  function AddColumnStep(st: State, table: string, column: string): (r: State)
    ensures r.tables == st.tables && r.columns == st.columns + {(table, column)} && r.constraints == st.constraints
    ensures r.actions == st.actions + [AddColumnAction(table, column)]
  {
    st.(columns := st.columns + {(table, column)}, actions := st.actions + [AddColumnAction(table, column)])
  }

  function CreateConstraintStep(st: State, table: string, name: string): (r: State)
    ensures r.tables == st.tables && r.columns == st.columns && r.constraints == st.constraints + {(table, name)}
    ensures r.actions == st.actions + [CreateConstraintAction(table, name)]
  {
    st.(constraints := st.constraints + {(table, name)}, actions := st.actions + [CreateConstraintAction(table, name)])
  }

  /** A creation guarded by HasConstraint. */
  function EnsureConstraint(st: State, table: string, name: string): State
  {
    if (table, name) in st.constraints then st else CreateConstraintStep(st, table, name)
  }

  // ---------------------------------------------------------------------
  // The loops of one model
  // ---------------------------------------------------------------------

  /** The column loop (:59-65), over the columns in the order the map happens to yield them. */
  function ColumnsRun(st: State, table: string, names: seq<string>): State
  {
    if names == [] then st
    else
      var prev := ColumnsRun(st, table, names[..|names| - 1]);
      var name := names[|names| - 1];
      if (table, name) in prev.columns then prev else AddColumnStep(prev, table, name)
  }

  /** The check-constraint loop (:76-82). */
  function ChecksRun(st: State, table: string, checks: seq<CheckConstraint>): State
  {
    if checks == [] then st
    else EnsureConstraint(ChecksRun(st, table, checks[..|checks| - 1]), table, checks[|checks| - 1].name)
  }

  /** One turn of the relationship loop: its constraint, then every check constraint of the model. */
  function RelationRun(st: State, table: string, rel: Relationship, checks: seq<CheckConstraint>): State
  {
    var st1 := if rel.constraint.Some? then EnsureConstraint(st, table, rel.constraint.value.name) else st;
    ChecksRun(st1, table, checks)
  }

  /** The relationship loop (:67-91), with the check-constraint loop inside it. */
  function RelationsRun(st: State, table: string, rels: seq<Relationship>, checks: seq<CheckConstraint>): State
  {
    if rels == [] then st
    else RelationRun(RelationsRun(st, table, rels[..|rels| - 1], checks), table, rels[|rels| - 1], checks)
  }

  /**
   * The join tables the relationship loop defers the creation of: exactly
   * those missing when probed.
   */
  function Pending(tables: set<string>, rels: seq<Relationship>): (pending: seq<string>)
    ensures forall t :: t in pending ==> t !in tables
    ensures forall t :: t in pending ==> exists i :: 0 <= i < |rels| && rels[i].joinTable == Some(t)
    ensures forall i :: 0 <= i < |rels| && rels[i].joinTable.Some? && rels[i].joinTable.value !in tables ==>
              rels[i].joinTable.value in pending
  {
    if rels == [] then []
    else
      var last := rels[|rels| - 1];
      Pending(tables, rels[..|rels| - 1])
        + (if last.joinTable.Some? && last.joinTable.value !in tables then [last.joinTable.value] else [])
  }

  /** Deferred calls run when the model's turn ends, the last deferred first. */
  function DeferredRun(st: State, pending: seq<string>): State
  {
    if pending == [] then st else CreateTableStep(DeferredRun(st, pending[1..]), pending[0])
  }

  /**
   * One model's turn: a missing table is created; an existing one gets
   * its missing columns, then its missing constraints, then its missing
   * join tables.
   */
  function ModelRun(st: State, s: Schema, names: seq<string>): State
  {
    if s.table !in st.tables then CreateTableStep(st, s.table)
    else
      var st1 := RelationsRun(ColumnsRun(st, s.table, names), s.table, s.relationships, s.checks);
      DeferredRun(st1, Pending(st.tables, s.relationships))
  }

  /** The model loop (:51-97), each model's columns in the order iterate gives for it. */
  function MigrateRun(st: State, order: seq<Schema>, iterate: Schema -> seq<string>): State
  {
    if order == [] then st
    else
      var s := order[|order| - 1];
      ModelRun(MigrateRun(st, order[..|order| - 1], iterate), s, iterate(s))
  }

  // ---------------------------------------------------------------------
  // Properties
  // ---------------------------------------------------------------------

  /** Nothing is dropped and the action log only grows. */
  ghost predicate Grows(st: State, r: State)
  {
    st.tables <= r.tables && st.columns <= r.columns && st.constraints <= r.constraints
    && |st.actions| <= |r.actions| && r.actions[..|st.actions|] == st.actions
  }

  lemma GrowsTransitive(a: State, b: State, c: State)
    requires Grows(a, b) && Grows(b, c)
    ensures Grows(a, c)
  {
    assert c.actions[..|a.actions|] == c.actions[..|b.actions|][..|a.actions|];
  }

  /** Every map key, each once: an order a Go map iteration may yield. */
  predicate Enumerates(names: seq<string>, keys: set<string>)
  {
    (forall i, j :: 0 <= i < j < |names| ==> names[i] != names[j])
    && (forall n :: n in names ==> n in keys) && (forall n :: n in keys ==> n in names)
  }

  /** The column loop adds the model's columns to the catalog and touches nothing else. */
  lemma {:induction false} ColumnsCatalog(st: State, table: string, names: seq<string>)
    ensures var r := ColumnsRun(st, table, names);
      && Grows(st, r)
      && r.tables == st.tables && r.constraints == st.constraints
      && r.columns == st.columns + (set n | n in names :: (table, n))
  {
    if names != [] {
      var init := names[..|names| - 1];
      var name := names[|names| - 1];
      ColumnsCatalog(st, table, init);
      var prev := ColumnsRun(st, table, init);
      var r := ColumnsRun(st, table, names);
      assert forall n :: n in names <==> n in init || n == name;
      assert (set n | n in names :: (table, n)) == (set n | n in init :: (table, n)) + {(table, name)};
      assert Grows(prev, r);
      GrowsTransitive(st, prev, r);
    }
  }

  /** The column loop asks for one AddColumn per column the table lacks, and for nothing else. */
  lemma {:induction false} ColumnsAdded(st: State, table: string, names: seq<string>)
    ensures var r := ColumnsRun(st, table, names);
      |st.actions| <= |r.actions| &&
      forall a :: a in r.actions[|st.actions|..] <==>
        exists n :: n in names && (table, n) !in st.columns && a == AddColumnAction(table, n)
  {
    if names != [] {
      var init := names[..|names| - 1];
      var name := names[|names| - 1];
      ColumnsAdded(st, table, init);
      ColumnsCatalog(st, table, init);
      var prev := ColumnsRun(st, table, init);
      var r := ColumnsRun(st, table, names);
      var before := prev.actions[|st.actions|..];
      var after := r.actions[|st.actions|..];
      var isNew := (table, name) !in prev.columns;
      assert forall n :: n in names <==> n in init || n == name;
      if isNew {
        assert after == before + [AddColumnAction(table, name)];
      }
      forall a | a in after
        ensures exists n :: n in names && (table, n) !in st.columns && a == AddColumnAction(table, n)
      {
        if a in before {
          var n :| n in init && (table, n) !in st.columns && a == AddColumnAction(table, n);
          assert n in names;
        } else {
          assert a == AddColumnAction(table, name);
        }
      }
      forall n | n in names && (table, n) !in st.columns
        ensures AddColumnAction(table, n) in after
      {
        if n in init {
          assert AddColumnAction(table, n) in before;
        } else {
          assert n == name;
        }
      }
    }
  }

  /**
   * The map's iteration order does not matter to what is added: two
   * enumerations of the same columns leave the same columns and ask for
   * the same additions.
   */
  lemma ColumnsOrderFree(st: State, table: string, xs: seq<string>, ys: seq<string>, keys: set<string>)
    requires Enumerates(xs, keys) && Enumerates(ys, keys)
    ensures ColumnsRun(st, table, xs).columns == ColumnsRun(st, table, ys).columns
    ensures forall a :: a in ColumnsRun(st, table, xs).actions <==> a in ColumnsRun(st, table, ys).actions
  {
    var rx := ColumnsRun(st, table, xs);
    var ry := ColumnsRun(st, table, ys);
    ColumnsCatalog(st, table, xs);
    ColumnsCatalog(st, table, ys);
    assert (set n | n in xs :: (table, n)) == (set n | n in ys :: (table, n));
    ColumnsAdded(st, table, xs);
    ColumnsAdded(st, table, ys);
    forall a
      ensures a in rx.actions <==> a in ry.actions
    {
      NewActions(st, rx, a);
      NewActions(st, ry, a);
    }
  }

  /** The actions after a step are the earlier ones and the new ones. */
  lemma NewActions(st: State, r: State, a: Action)
    requires Grows(st, r)
    ensures a in r.actions <==> a in st.actions || a in r.actions[|st.actions|..]
  {
    assert r.actions == st.actions + r.actions[|st.actions|..];
  }

  /** Every action asked for between st and r creates a constraint that st lacked. */
  ghost predicate OnlyNewConstraints(st: State, r: State)
    requires Grows(st, r)
  {
    forall a :: a in r.actions[|st.actions|..] ==> a.CreateConstraintAction? && (a.table, a.name) !in st.constraints
  }

  lemma OnlyNewConstraintsTransitive(a: State, b: State, c: State)
    requires Grows(a, b) && Grows(b, c) && Grows(a, c)
    requires OnlyNewConstraints(a, b) && OnlyNewConstraints(b, c)
    ensures OnlyNewConstraints(a, c)
  {
    assert c.actions[|a.actions|..] == b.actions[|a.actions|..] + c.actions[|b.actions|..] by {
      assert c.actions == b.actions + c.actions[|b.actions|..];
      assert b.actions == a.actions + b.actions[|a.actions|..];
    }
  }

  lemma EnsureConstraintAdds(st: State, table: string, name: string)
    ensures var r := EnsureConstraint(st, table, name);
      && Grows(st, r) && r.tables == st.tables && r.columns == st.columns
      && (table, name) in r.constraints && OnlyNewConstraints(st, r)
  {
    var r := EnsureConstraint(st, table, name);
    if r != st {
      assert r.actions[|st.actions|..] == [CreateConstraintAction(table, name)];
    }
  }

  lemma {:induction false} ChecksAdded(st: State, table: string, checks: seq<CheckConstraint>)
    ensures var r := ChecksRun(st, table, checks);
      && Grows(st, r) && r.tables == st.tables && r.columns == st.columns
      && (forall i :: 0 <= i < |checks| ==> (table, checks[i].name) in r.constraints)
      && OnlyNewConstraints(st, r)
  {
    if checks != [] {
      var init := checks[..|checks| - 1];
      ChecksAdded(st, table, init);
      var prev := ChecksRun(st, table, init);
      var r := ChecksRun(st, table, checks);
      EnsureConstraintAdds(prev, table, checks[|checks| - 1].name);
      GrowsTransitive(st, prev, r);
      OnlyNewConstraintsTransitive(st, prev, r);
      forall i | 0 <= i < |checks| - 1
        ensures (table, checks[i].name) in r.constraints
      {
        assert checks[i] == init[i];
      }
    }
  }

  lemma RelationAdded(st: State, table: string, rel: Relationship, checks: seq<CheckConstraint>)
    ensures var r := RelationRun(st, table, rel, checks);
      && Grows(st, r) && r.tables == st.tables && r.columns == st.columns
      && (rel.constraint.Some? ==> (table, rel.constraint.value.name) in r.constraints)
      && (forall i :: 0 <= i < |checks| ==> (table, checks[i].name) in r.constraints)
      && OnlyNewConstraints(st, r)
  {
    var st1 := if rel.constraint.Some? then EnsureConstraint(st, table, rel.constraint.value.name) else st;
    if rel.constraint.Some? {
      EnsureConstraintAdds(st, table, rel.constraint.value.name);
    } else {
      assert st.actions[|st.actions|..] == [];
    }
    ChecksAdded(st1, table, checks);
    GrowsTransitive(st, st1, RelationRun(st, table, rel, checks));
    OnlyNewConstraintsTransitive(st, st1, RelationRun(st, table, rel, checks));
  }

  lemma {:induction false} RelationsAdded(st: State, table: string, rels: seq<Relationship>, checks: seq<CheckConstraint>)
    ensures var r := RelationsRun(st, table, rels, checks);
      && Grows(st, r) && r.tables == st.tables && r.columns == st.columns
      && (forall i :: 0 <= i < |rels| && rels[i].constraint.Some? ==> (table, rels[i].constraint.value.name) in r.constraints)
      && (rels != [] ==> forall i :: 0 <= i < |checks| ==> (table, checks[i].name) in r.constraints)
      && (rels == [] ==> r == st)
      && OnlyNewConstraints(st, r)
  {
    if rels == [] {
      assert st.actions[|st.actions|..] == [];
    } else {
      var init := rels[..|rels| - 1];
      RelationsAdded(st, table, init, checks);
      var prev := RelationsRun(st, table, init, checks);
      var r := RelationsRun(st, table, rels, checks);
      RelationAdded(prev, table, rels[|rels| - 1], checks);
      GrowsTransitive(st, prev, r);
      OnlyNewConstraintsTransitive(st, prev, r);
      forall i | 0 <= i < |rels| - 1 && rels[i].constraint.Some?
        ensures (table, rels[i].constraint.value.name) in r.constraints
      {
        assert rels[i] == init[i];
      }
    }
  }

  lemma {:induction false} DeferredAdded(st: State, pending: seq<string>)
    ensures var r := DeferredRun(st, pending);
      && Grows(st, r) && r.columns == st.columns && r.constraints == st.constraints
      && r.tables == st.tables + (set t | t in pending)
      && r.actions == st.actions + Reversed(pending)
  {
    if pending != [] {
      DeferredAdded(st, pending[1..]);
      assert pending == [pending[0]] + pending[1..];
      assert (set t | t in pending) == (set t | t in pending[1..]) + {pending[0]};
      var r := DeferredRun(st, pending);
      assert r.actions[..|st.actions|] == DeferredRun(st, pending[1..]).actions[..|st.actions|];
    }
  }

  /** The table creations of deferred calls: the last deferred first. */
  function Reversed(pending: seq<string>): (acts: seq<Action>)
    ensures |acts| == |pending|
    ensures forall i :: 0 <= i < |pending| ==> acts[i] == CreateTableAction(pending[|pending| - 1 - i])
  {
    if pending == [] then [] else Reversed(pending[1..]) + [CreateTableAction(pending[0])]
  }

  /**
   * A missing table is created and nothing else is done for its model.
   * An existing table gets every column it lacks, and, only when the
   * model has a relationship, every constraint and check constraint it
   * lacks; with no relationship, no constraint at all is created; last
   * come the join tables that were missing, the last relationship's first,
   * so that every join table of the model exists.
   */
  lemma ModelActions(st: State, s: Schema, names: seq<string>)
    ensures var r := ModelRun(st, s, names);
      && Grows(st, r) && s.table in r.tables
      && (s.table !in st.tables ==> r.actions == st.actions + [CreateTableAction(s.table)] && r.columns == st.columns
                                     && r.constraints == st.constraints)
      && (s.table in st.tables ==>
            && (forall n :: n in names ==> (s.table, n) in r.columns)
            && (forall i :: 0 <= i < |s.relationships| && s.relationships[i].constraint.Some? ==>
                  (s.table, s.relationships[i].constraint.value.name) in r.constraints)
            && (s.relationships != [] ==> forall i :: 0 <= i < |s.checks| ==> (s.table, s.checks[i].name) in r.constraints)
            && (s.relationships == [] ==> r.constraints == st.constraints)
            && (forall i :: 0 <= i < |s.relationships| && s.relationships[i].joinTable.Some? ==>
                  s.relationships[i].joinTable.value in r.tables)
            && |Pending(st.tables, s.relationships)| <= |r.actions|
            && r.actions[|r.actions| - |Pending(st.tables, s.relationships)|..] == Reversed(Pending(st.tables, s.relationships)))
  {
    if s.table in st.tables {
      var st0 := ColumnsRun(st, s.table, names);
      var st1 := RelationsRun(st0, s.table, s.relationships, s.checks);
      var pending := Pending(st.tables, s.relationships);
      ColumnsCatalog(st, s.table, names);
      RelationsAdded(st0, s.table, s.relationships, s.checks);
      DeferredAdded(st1, pending);
      GrowsTransitive(st, st0, st1);
      GrowsTransitive(st, st1, ModelRun(st, s, names));
    }
  }

  /**
   * After AutoMigrate's model loop, every model's table exists; every
   * model whose table already existed has all its columns, as its column
   * map lists them, whatever order the map yielded them in.
   */
  lemma {:induction false} MigrateCovers(st: State, order: seq<Schema>, iterate: Schema -> seq<string>)
    requires forall i :: 0 <= i < |order| ==> Enumerates(iterate(order[i]), order[i].fieldsByDBName.Keys)
    ensures var r := MigrateRun(st, order, iterate);
      && Grows(st, r)
      && (forall i :: 0 <= i < |order| ==> order[i].table in r.tables)
      && (forall i, n :: 0 <= i < |order| && order[i].table in st.tables && n in order[i].fieldsByDBName ==>
           (order[i].table, n) in r.columns)
      && forall i, j :: 0 <= i < |order| && order[i].table in st.tables && 0 <= j < |order[i].relationships|
                          && order[i].relationships[j].joinTable.Some? ==>
           order[i].relationships[j].joinTable.value in r.tables
  {
    if order != [] {
      var init := order[..|order| - 1];
      var s := order[|order| - 1];
      MigrateCovers(st, init, iterate);
      var prev := MigrateRun(st, init, iterate);
      ModelActions(prev, s, iterate(s));
      var r := MigrateRun(st, order, iterate);
      GrowsTransitive(st, prev, r);
      forall i | 0 <= i < |order| - 1
        ensures order[i].table in r.tables
      {
        assert order[i] == init[i];
      }
      forall i, n | 0 <= i < |order| && order[i].table in st.tables && n in order[i].fieldsByDBName
        ensures (order[i].table, n) in r.columns
      {
        if i < |order| - 1 {
          assert order[i] == init[i];
        } else {
          assert n in iterate(s);
        }
      }
      forall i, j | 0 <= i < |order| && order[i].table in st.tables && 0 <= j < |order[i].relationships|
                    && order[i].relationships[j].joinTable.Some?
        ensures order[i].relationships[j].joinTable.value in r.tables
      {
        if i < |order| - 1 {
          assert order[i] == init[i];
        }
      }
    }
  }

  /**
   * After AutoMigrate, every supplied model's table exists, and so does
   * every table a supplied model (transitively) references, and every join
   * table of a model whose table already existed.
   */
  lemma MigratedTables(values: seq<Schema>, registry: map<string, Schema>, order: seq<Schema>,
                       st: State, iterate: Schema -> seq<string>)
    requires Reordered(values, true, registry, order)
    requires forall i :: 0 <= i < |order| ==> Enumerates(iterate(order[i]), order[i].fieldsByDBName.Keys)
    ensures forall t :: t in Registered(values) ==> t in MigrateRun(st, order, iterate).tables
    ensures forall i, d :: 0 <= i < |order| && d in Depends(order[i]) ==> d in MigrateRun(st, order, iterate).tables
    ensures forall i, j :: 0 <= i < |order| && order[i].table in st.tables && 0 <= j < |order[i].relationships|
                             && order[i].relationships[j].joinTable.Some? ==>
              order[i].relationships[j].joinTable.value in MigrateRun(st, order, iterate).tables
  {
    MigrateCovers(st, order, iterate);
    ReorderedTablesIn(values, registry, order, MigrateRun(st, order, iterate).tables);
  }

  lemma ReorderedTablesIn(values: seq<Schema>, registry: map<string, Schema>, order: seq<Schema>, tables: set<string>)
    requires Reordered(values, true, registry, order)
    requires forall i :: 0 <= i < |order| ==> order[i].table in tables
    ensures forall t :: t in Registered(values) ==> t in tables
    ensures forall i, d :: 0 <= i < |order| && d in Depends(order[i]) ==> d in tables
  {
    forall t | t in Registered(values)
      ensures t in tables
    {
      assert t in TablesOf(order);
      var k :| 0 <= k < |order| && TablesOf(order)[k] == t;
    }
    forall i, d | 0 <= i < |order| && d in Depends(order[i])
      ensures d in tables
    {
      DependencyEarlier(values, registry, order, i, d);
    }
  }

  lemma DependencyEarlier(values: seq<Schema>, registry: map<string, Schema>, order: seq<Schema>, i: nat, d: string)
    requires Reordered(values, true, registry, order)
    requires i < |order| && d in Depends(order[i])
    ensures exists k :: 0 <= k < i && order[k].table == d
  {
    var registered := d in Registered(values);
    assert d in TablesOf(order[..i]);
    var k :| 0 <= k < i && TablesOf(order[..i])[k] == d;
    assert order[..i][k] == order[k];
  }

  // ---------------------------------------------------------------------
  // The database as AutoMigrate sees it
  // ---------------------------------------------------------------------

  class Catalog {
    var tables: set<string>
    var columns: set<(string, string)>
    var constraints: set<(string, string)>
    var actions: seq<Action>

    constructor(tables: set<string>, columns: set<(string, string)>, constraints: set<(string, string)>)
      ensures Snapshot() == State(tables, columns, constraints, [])
    {
      this.tables := tables;
      this.columns := columns;
      this.constraints := constraints;
      actions := [];
    }

    function Snapshot(): State
      reads this
    {
      State(tables, columns, constraints, actions)
    }

    /** Migrator.CreateTable on one model, as far as the catalog goes. */
    method CreateTable(table: string)
      modifies this
      ensures Snapshot() == CreateTableStep(old(Snapshot()), table)
    {
      tables := tables + {table};
      actions := actions + [CreateTableAction(table)];
    }

    method AddColumn(table: string, column: string)
      modifies this
      ensures Snapshot() == AddColumnStep(old(Snapshot()), table, column)
    {
      columns := columns + {(table, column)};
      actions := actions + [AddColumnAction(table, column)];
    }

    method CreateConstraint(table: string, name: string)
      modifies this
      ensures Snapshot() == CreateConstraintStep(old(Snapshot()), table, name)
    {
      constraints := constraints + {(table, name)};
      actions := actions + [CreateConstraintAction(table, name)];
    }
  }

  // ---------------------------------------------------------------------
  // AutoMigrate (migrator/migrator.go:48-100)
  // ---------------------------------------------------------------------

  /**
   * The models, reordered with referenced models added, each migrated in
   * turn; iterate stands for the order in which the runtime happens to
   * walk each model's column map.
   */
  method Migrate(cat: Catalog, values: seq<Schema>, registry: map<string, Schema>, ghost rank: map<string, nat>,
                 iterate: Schema -> seq<string>)
    returns (ghost order: seq<Schema>)
    requires Coherent(registry) && Closed(Universe(values, registry, true))
    requires Acyclic(Universe(values, registry, true), rank)
    modifies cat
    ensures Reordered(values, true, registry, order)
    ensures cat.Snapshot() == MigrateRun(old(cat.Snapshot()), order, iterate)
  {
    var ordered := ReorderModels(values, true, registry, rank);
    order := ordered;
    MigrateModels(cat, ordered, iterate);
  }

  method MigrateModels(cat: Catalog, ordered: seq<Schema>, iterate: Schema -> seq<string>)
    modifies cat
    ensures cat.Snapshot() == MigrateRun(old(cat.Snapshot()), ordered, iterate)
  {
    for i := 0 to |ordered|
      invariant cat.Snapshot() == MigrateRun(old(cat.Snapshot()), ordered[..i], iterate)
    {
      assert ordered[..i + 1][..i] == ordered[..i];
      MigrateModel(cat, ordered[i], iterate(ordered[i]));
    }
    assert ordered[..|ordered|] == ordered;
  }

  method MigrateModel(cat: Catalog, s: Schema, names: seq<string>)
    modifies cat
    ensures cat.Snapshot() == ModelRun(old(cat.Snapshot()), s, names)
  {
    if s.table !in cat.tables {
      cat.CreateTable(s.table);
    } else {
      AddMissingColumns(cat, s.table, names);
      var pending := MigrateRelations(cat, s);
      RunDeferred(cat, pending);
    }
  }

  method AddMissingColumns(cat: Catalog, table: string, names: seq<string>)
    modifies cat
    ensures cat.Snapshot() == ColumnsRun(old(cat.Snapshot()), table, names)
    ensures cat.tables == old(cat.tables)
  {
    for i := 0 to |names|
      invariant cat.Snapshot() == ColumnsRun(old(cat.Snapshot()), table, names[..i])
      invariant cat.tables == old(cat.tables)
    {
      assert names[..i + 1][..i] == names[..i];
      if (table, names[i]) !in cat.columns {
        cat.AddColumn(table, names[i]);
      }
    }
    assert names[..|names|] == names;
  }

  /** The relationship loop; returns the join tables whose creation it deferred. */
  method MigrateRelations(cat: Catalog, s: Schema) returns (pending: seq<string>)
    modifies cat
    ensures cat.Snapshot() == RelationsRun(old(cat.Snapshot()), s.table, s.relationships, s.checks)
    ensures pending == Pending(old(cat.tables), s.relationships)
  {
    pending := [];
    for i := 0 to |s.relationships|
      invariant cat.Snapshot() == RelationsRun(old(cat.Snapshot()), s.table, s.relationships[..i], s.checks)
      invariant cat.tables == old(cat.tables)
      invariant pending == Pending(old(cat.tables), s.relationships[..i])
    {
      var rel := s.relationships[i];
      assert s.relationships[..i + 1][..i] == s.relationships[..i];
      if rel.constraint.Some? && (s.table, rel.constraint.value.name) !in cat.constraints {
        cat.CreateConstraint(s.table, rel.constraint.value.name);
      }
      CreateMissingChecks(cat, s.table, s.checks);
      if rel.joinTable.Some? && rel.joinTable.value !in cat.tables {
        pending := pending + [rel.joinTable.value];
      }
    }
    assert s.relationships[..|s.relationships|] == s.relationships;
  }

  method CreateMissingChecks(cat: Catalog, table: string, checks: seq<CheckConstraint>)
    modifies cat
    ensures cat.Snapshot() == ChecksRun(old(cat.Snapshot()), table, checks)
    ensures cat.tables == old(cat.tables)
  {
    for i := 0 to |checks|
      invariant cat.Snapshot() == ChecksRun(old(cat.Snapshot()), table, checks[..i])
      invariant cat.tables == old(cat.tables)
    {
      assert checks[..i + 1][..i] == checks[..i];
      if (table, checks[i].name) !in cat.constraints {
        cat.CreateConstraint(table, checks[i].name);
      }
    }
    assert checks[..|checks|] == checks;
  }

  /** The deferred join-table creations, run last-deferred first when the model's turn ends. */
  method RunDeferred(cat: Catalog, pending: seq<string>)
    modifies cat
    ensures cat.Snapshot() == DeferredRun(old(cat.Snapshot()), pending)
  {
    for i := |pending| downto 0
      invariant cat.Snapshot() == DeferredRun(old(cat.Snapshot()), pending[i..])
    {
      assert pending[i..][1..] == pending[i + 1..];
      cat.CreateTable(pending[i]);
    }
  }
}
