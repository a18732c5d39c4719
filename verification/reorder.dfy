/**
 * Dependency ordering of models (ReorderModels, migrator/migrator.go:483-547).
 *
 * A model is its schema descriptor. The descriptors of referenced models,
 * which the source obtains by instantiating the referenced model type and
 * parsing it, come from `registry`, keyed by table name.
 *
 * The source marks a table as placed only after its dependencies have been
 * placed, so a cycle of two or more tables recurses without end. The model
 * therefore asks for an acyclic graph, witnessed by a rank that decreases
 * along every dependency edge, and uses that rank as the termination
 * measure of the recursive insertion.
 */
module Reorder {
  import opened Schema

  /** A parsed model with the tables it depends on. */
  datatype Dependency = Dependency(schema: Schema, depends: seq<string>)

  function TablesOf(values: seq<Schema>): (ts: seq<string>)
    ensures |ts| == |values|
    ensures forall i :: 0 <= i < |values| ==> ts[i] == values[i].table
  {
    seq(|values|, i requires 0 <= i < |values| => values[i].table)
  }

  predicate Distinct(s: seq<string>)
  {
    forall i, j :: 0 <= i < j < |s| ==> s[i] != s[j]
  }

  /** The sequence with every repeated element after its first occurrence dropped. */
  function Dedup(s: seq<string>): (r: seq<string>)
    ensures Distinct(r)
    ensures forall x :: x in r <==> x in s
  {
    if s == [] then []
    else
      var init := Dedup(s[..|s| - 1]);
      assert forall x :: x in s[..|s| - 1] ==> x in s;
      assert forall x :: x in s ==> x in s[..|s| - 1] || x == s[|s| - 1];
      if s[|s| - 1] in init then init else init + [s[|s| - 1]]
  }

  /**
   * The descriptors registered by parsing the supplied models, by table: a
   * later model with the same table replaces an earlier one.
   */
  function Registered(values: seq<Schema>): (m: map<string, Schema>)
    ensures forall t :: t in m ==> m[t].table == t && m[t] in values
    ensures forall t :: t in m <==> t in TablesOf(values)
  {
    if values == [] then map[]
    else
      var init := values[..|values| - 1];
      var last := values[|values| - 1];
      assert forall i :: 0 <= i < |init| ==> TablesOf(init)[i] == TablesOf(values)[i];
      assert forall t :: t in TablesOf(values) ==> t in TablesOf(init) || t == last.table;
      Registered(init)[last.table := last]
  }

  /** A registry whose every descriptor is stored under its own table. */
  predicate Coherent(registry: map<string, Schema>)
  {
    forall t :: t in registry ==> registry[t].table == t
  }

  /** The descriptors the ordering may consult. */
  function Universe(values: seq<Schema>, registry: map<string, Schema>, autoAdd: bool): map<string, Schema>
  {
    if autoAdd then registry + Registered(values) else Registered(values)
  }

  /** Every edge between two tables of g goes from a higher rank to a lower one. */
  ghost predicate Acyclic(g: map<string, Schema>, rank: map<string, nat>)
  {
    && g.Keys <= rank.Keys
    && forall n, d :: n in g && d in Depends(g[n]) && d in g ==> rank[d] < rank[n]
  }

  /** Every table a descriptor of g depends on has a descriptor in g. */
  ghost predicate Closed(g: map<string, Schema>)
  {
    forall n, d :: n in g && d in Depends(g[n]) ==> d in g
  }

  /** No supplied model has a dependency edge. */
  predicate NoEdges(values: seq<Schema>)
  {
    forall i :: 0 <= i < |values| ==> Depends(values[i]) == []
  }

  /**
   * Each placed table comes after every one of its dependencies that is
   * registered (and, with autoAdd, after every one of them).
   */
  ghost predicate DependenciesFirst(order: seq<string>, vm: map<string, Dependency>, autoAdd: bool)
  {
    && (forall i :: 0 <= i < |order| ==> order[i] in vm)
    && forall i, d :: 0 <= i < |order| && order[i] in vm && d in vm[order[i]].depends && (autoAdd || d in vm) ==>
         d in order[..i]
  }

  /** Every dependency in ds that counts (all of them with autoAdd, else the registered ones) is placed. */
  ghost predicate Settled(ds: seq<string>, vm: map<string, Dependency>, autoAdd: bool, placed: set<string>)
  {
    forall d :: d in ds && (autoAdd || d in vm) ==> d in placed
  }

  lemma SettledExtend(ds: seq<string>, i: nat, vm: map<string, Dependency>, vm': map<string, Dependency>,
                      autoAdd: bool, placed: set<string>, placed': set<string>)
    requires i < |ds| && Settled(ds[..i], vm, autoAdd, placed)
    requires placed <= placed' && (!autoAdd ==> vm' == vm)
    requires (autoAdd || ds[i] in vm') ==> ds[i] in placed'
    ensures Settled(ds[..i + 1], vm', autoAdd, placed')
  {
    assert ds[..i + 1] == ds[..i] + [ds[i]];
  }

  /** The parsed models agree with the descriptors the ordering may consult. */
  ghost predicate Parsed(autoAdd: bool, registry: map<string, Schema>, universe: map<string, Schema>,
                         rank: map<string, nat>, vm: map<string, Dependency>)
  {
    && Acyclic(universe, rank)
    && (autoAdd ==> Coherent(registry) && Closed(universe))
    && (forall n :: n in vm ==> n in universe && vm[n] == Dependency(universe[n], Depends(universe[n])))
    && (autoAdd ==> forall n :: n in universe && n !in vm ==> n in registry && registry[n] == universe[n])
  }

  /** The placement order holds each table once, after its dependencies, and `placed` is its set. */
  ghost predicate Placed(order: seq<string>, placed: set<string>, vm: map<string, Dependency>, autoAdd: bool)
  {
    && Distinct(order)
    && (forall n :: n in placed <==> n in order)
    && DependenciesFirst(order, vm, autoAdd)
  }

  /** Placing a table whose dependencies are all placed keeps the order valid. */
  lemma AppendKeepsOrder(order: seq<string>, placed: set<string>, vm: map<string, Dependency>, autoAdd: bool, name: string)
    requires Placed(order, placed, vm, autoAdd)
    requires name in vm && name !in placed
    requires Settled(vm[name].depends, vm, autoAdd, placed)
    ensures Placed(order + [name], placed + {name}, vm, autoAdd)
  {
    var o := order + [name];
    forall i, d | 0 <= i < |o| && o[i] in vm && d in vm[o[i]].depends && (autoAdd || d in vm)
      ensures d in o[..i]
    {
      if i < |order| {
        assert o[..i] == order[..i];
      } else {
        assert o[..i] == order;
      }
    }
  }

  /** With autoAdd, registering a referenced model that was not supplied keeps the state valid. */
  lemma RegisterKeepsValid(registry: map<string, Schema>, universe: map<string, Schema>, rank: map<string, nat>,
                           vm: map<string, Dependency>, order: seq<string>, placed: set<string>, d: string)
    requires Parsed(true, registry, universe, rank, vm) && Placed(order, placed, vm, true)
    requires d in universe && d !in vm
    ensures d in registry && registry[d].table == d
    ensures Parsed(true, registry, universe, rank, vm[d := Dependency(registry[d], Depends(registry[d]))])
    ensures Placed(order, placed, vm[d := Dependency(registry[d], Depends(registry[d]))], true)
  {
    var vm' := vm[d := Dependency(registry[d], Depends(registry[d]))];
    assert forall i :: 0 <= i < |order| ==> order[i] in vm && order[i] != d;
    assert forall i :: 0 <= i < |order| ==> vm'[order[i]] == vm[order[i]];
  }

  /**
   * The parsed models after the supplied ones have been registered, one
   * after the other: a later model with the same table replaces an earlier one.
   */
  function ParsedModels(values: seq<Schema>): (vm: map<string, Dependency>)
    ensures vm.Keys == Registered(values).Keys
    ensures forall t :: t in vm ==> vm[t] == Dependency(Registered(values)[t], Depends(Registered(values)[t]))
  {
    if values == [] then map[]
    else
      var last := values[|values| - 1];
      ParsedModels(values[..|values| - 1])[last.table := Dependency(last, Depends(last))]
  }

  /** The state right after parsing the supplied models is valid. */
  lemma ParsedValid(values: seq<Schema>, registry: map<string, Schema>, autoAdd: bool, rank: map<string, nat>)
    requires autoAdd ==> Coherent(registry) && Closed(Universe(values, registry, true))
    requires Acyclic(Universe(values, registry, autoAdd), rank)
    ensures Parsed(autoAdd, registry, Universe(values, registry, autoAdd), rank, ParsedModels(values))
    ensures Placed([], {}, ParsedModels(values), autoAdd)
  {
    UniverseTables(values, registry, autoAdd);
  }

  /**
   * Every table parsed beyond the supplied ones was registered as a
   * dependency of a parent (parentOf), and is placed before that parent.
   */
  ghost predicate Adopted(supplied: set<string>, parentOf: map<string, string>, vm: map<string, Dependency>,
                          order: seq<string>)
  {
    && (forall n :: n in vm && n !in supplied ==> n in parentOf)
    && (forall n :: n in parentOf ==> n in vm && parentOf[n] in vm && n in vm[parentOf[n]].depends)
    && (forall n, k :: n in parentOf && 0 <= k < |order| && order[k] == parentOf[n] ==> n in order[..k])
  }

  /** Placing a table whose dependencies are all placed keeps every adopted table before its parent. */
  lemma AppendKeepsAdopted(supplied: set<string>, parentOf: map<string, string>, vm: map<string, Dependency>,
                           order: seq<string>, placed: set<string>, autoAdd: bool, name: string)
    requires Adopted(supplied, parentOf, vm, order)
    requires forall n :: n in placed <==> n in order
    requires name in vm && Settled(vm[name].depends, vm, autoAdd, placed)
    ensures Adopted(supplied, parentOf, vm, order + [name])
  {
    var o := order + [name];
    forall n, k | n in parentOf && 0 <= k < |o| && o[k] == parentOf[n]
      ensures n in o[..k]
    {
      if k < |order| {
        assert o[..k] == order[..k];
      } else {
        assert n in vm[name].depends;
        assert o[..k] == order;
      }
    }
  }

  /** Registering d as a dependency of an unplaced parent records that parent. */
  lemma RegisterKeepsAdopted(supplied: set<string>, parentOf: map<string, string>, vm: map<string, Dependency>,
                             order: seq<string>, placed: set<string>, dep: Dependency, parent: string, d: string)
    requires Adopted(supplied, parentOf, vm, order)
    requires forall n :: n in placed <==> n in order
    requires parent in vm && d in vm[parent].depends && parent !in placed && d !in vm
    ensures Adopted(supplied, parentOf[d := parent], vm[d := dep], order)
  {
    var vm' := vm[d := dep];
    forall n | n in parentOf
      ensures parentOf[n] in vm' && n in vm'[parentOf[n]].depends
    {
      assert parentOf[n] != d;
    }
  }

  /**
   * With an adopted table placed before its parent and every parsed table
   * placed, each collected descriptor that was not supplied is a
   * dependency of a later one.
   */
  lemma AdoptedResults(values: seq<Schema>, autoAdd: bool, registry: map<string, Schema>,
                       parentOf: map<string, string>, ordered: seq<string>, placed: set<string>,
                       vm: map<string, Dependency>, results: seq<Schema>)
    requires Sourced(values, autoAdd, registry, vm)
    requires Placed(ordered, placed, vm, autoAdd)
    requires Adopted(Registered(values).Keys, parentOf, vm, ordered)
    requires forall n :: n in vm ==> n in placed
    requires |results| == |ordered| && forall j :: 0 <= j < |results| ==> results[j] == vm[ordered[j]].schema
    ensures OnlyReferenced(values, results)
  {
    forall i | 0 <= i < |results| && results[i].table !in Registered(values)
      ensures exists k :: i < k < |results| && results[i].table in Depends(results[k])
    {
      var n := ordered[i];
      assert results[i].table == n;
      var p := parentOf[n];
      assert p in placed;
      var k :| 0 <= k < |ordered| && ordered[k] == p;
      assert n in ordered[..k];
      var i' :| 0 <= i' < k && ordered[..k][i'] == n;
      assert ordered[i'] == n;
      assert i' == i;
      assert n in Depends(results[k]);
    }
  }

  /**
   * The local state of one ReorderModels call: the parsed models by table
   * (valuesMap), the supplied table names (modelNames), the placement order
   * (orderedModelNames) and the set of placed tables (orderedModelNamesMap).
   */
  class ModelOrder {
    const autoAdd: bool
    const registry: map<string, Schema>
    ghost const universe: map<string, Schema>
    ghost const rank: map<string, nat>
    ghost const supplied: set<string>
    ghost var parentOf: map<string, string>
    var valuesMap: map<string, Dependency>
    var modelNames: seq<string>
    var orderedModelNames: seq<string>
    var orderedModelNamesMap: set<string>

    ghost predicate Valid()
      reads this
    {
      && Parsed(autoAdd, registry, universe, rank, valuesMap)
      && Placed(orderedModelNames, orderedModelNamesMap, valuesMap, autoAdd)
      && Adopted(supplied, parentOf, valuesMap, orderedModelNames)
    }

    constructor (autoAdd: bool, registry: map<string, Schema>, ghost universe: map<string, Schema>,
                 ghost rank: map<string, nat>, ghost supplied: set<string>)
      ensures this.autoAdd == autoAdd && this.registry == registry
      ensures this.universe == universe && this.rank == rank && this.supplied == supplied
      ensures parentOf == map[]
      ensures valuesMap == map[] && modelNames == []
      ensures orderedModelNames == [] && orderedModelNamesMap == {}
    {
      this.autoAdd := autoAdd;
      this.registry := registry;
      this.universe := universe;
      this.rank := rank;
      this.supplied := supplied;
      parentOf := map[];
      valuesMap := map[];
      modelNames := [];
      orderedModelNames := [];
      orderedModelNamesMap := {};
    }

    /** parseDependence: registers a model under its table, with the tables it depends on. */
    method ParseDependence(value: Schema, addToList: bool)
      modifies this
      ensures valuesMap == old(valuesMap)[value.table := Dependency(value, Depends(value))]
      ensures modelNames == old(modelNames) + (if addToList then [value.table] else [])
      ensures orderedModelNames == old(orderedModelNames)
      ensures orderedModelNamesMap == old(orderedModelNamesMap)
      ensures parentOf == old(parentOf)
    {
      var depends: seq<string> := [];
      var rels := value.relationships;
      for i := 0 to |rels|
        invariant depends == DependsOn(rels[..i])
      {
        assert rels[..i + 1][..i] == rels[..i];
        var rel := rels[i];
        if rel.constraint.Some? && rel.constraint.value.schema != rel.constraint.value.referenceSchema {
          depends := depends + [rel.constraint.value.referenceSchema];
        }
      }
      assert rels[..|rels|] == rels;
      valuesMap := valuesMap[value.table := Dependency(value, depends)];
      if addToList {
        modelNames := modelNames + [value.table];
      }
    }

    /** The first loop of ReorderModels: parses every supplied model, in order. */
    method ParseAll(values: seq<Schema>)
      requires valuesMap == map[] && modelNames == []
      modifies this
      ensures valuesMap == ParsedModels(values)
      ensures modelNames == TablesOf(values)
      ensures orderedModelNames == old(orderedModelNames)
      ensures orderedModelNamesMap == old(orderedModelNamesMap)
      ensures parentOf == old(parentOf)
    {
      for i := 0 to |values|
        invariant valuesMap == ParsedModels(values[..i])
        invariant modelNames == TablesOf(values[..i])
        invariant orderedModelNames == old(orderedModelNames)
        invariant orderedModelNamesMap == old(orderedModelNamesMap)
        invariant parentOf == old(parentOf)
      {
        assert values[..i + 1][..i] == values[..i];
        assert TablesOf(values[..i + 1]) == TablesOf(values[..i]) + [values[i].table];
        ParseDependence(values[i], true);
      }
      assert values[..|values|] == values;
    }

    /**
     * insertIntoOrderedList: places every dependency of `name` first
     * (registering a referenced model that was not supplied when autoAdd is
     * set, skipping it otherwise), then `name` itself.
     */
    method Insert(name: string)
      requires Valid() && name in valuesMap
      modifies this
      decreases rank[name], 2
      ensures Valid()
      ensures name in orderedModelNamesMap
      ensures old(orderedModelNamesMap) <= orderedModelNamesMap
      ensures old(orderedModelNames) <= orderedModelNames
      ensures old(valuesMap).Keys <= valuesMap.Keys
      ensures !autoAdd ==> valuesMap == old(valuesMap)
      ensures forall n :: n in valuesMap && n !in old(valuesMap) ==> n in orderedModelNamesMap
      ensures forall n :: n in orderedModelNamesMap && n !in old(orderedModelNamesMap) ==> rank[n] <= rank[name]
      ensures name in old(orderedModelNamesMap) ==> orderedModelNames == old(orderedModelNames)
      ensures valuesMap[name].depends == [] ==> valuesMap == old(valuesMap)
      ensures valuesMap[name].depends == [] && name !in old(orderedModelNamesMap) ==>
                orderedModelNames == old(orderedModelNames) + [name]
    {
      if name in orderedModelNamesMap {
        return;
      }
      InsertDependencies(name);
      Place(name);
    }

    /** The end of insertIntoOrderedList: appends a table whose dependencies are placed. */
    method Place(name: string)
      requires Valid() && name in valuesMap && name !in orderedModelNamesMap
      requires Settled(valuesMap[name].depends, valuesMap, autoAdd, orderedModelNamesMap)
      modifies this
      ensures Valid()
      ensures orderedModelNames == old(orderedModelNames) + [name]
      ensures orderedModelNamesMap == old(orderedModelNamesMap) + {name}
      ensures valuesMap == old(valuesMap) && parentOf == old(parentOf)
    {
      AppendKeepsOrder(orderedModelNames, orderedModelNamesMap, valuesMap, autoAdd, name);
      AppendKeepsAdopted(supplied, parentOf, valuesMap, orderedModelNames, orderedModelNamesMap, autoAdd, name);
      ghost var parsed := Parsed(autoAdd, registry, universe, rank, valuesMap);
      assert parsed;
      orderedModelNames := orderedModelNames + [name];
      orderedModelNamesMap := orderedModelNamesMap + {name};
      assert Parsed(autoAdd, registry, universe, rank, valuesMap) == parsed;
    }

    /** The loop of insertIntoOrderedList: places each dependency of `name` in turn. */
    method InsertDependencies(name: string)
      requires Valid() && name in valuesMap && name !in orderedModelNamesMap
      modifies this
      decreases rank[name], 1
      ensures Valid()
      ensures name in valuesMap && valuesMap[name] == old(valuesMap[name])
      ensures name !in orderedModelNamesMap
      ensures Settled(valuesMap[name].depends, valuesMap, autoAdd, orderedModelNamesMap)
      ensures old(orderedModelNamesMap) <= orderedModelNamesMap
      ensures old(orderedModelNames) <= orderedModelNames
      ensures old(valuesMap).Keys <= valuesMap.Keys
      ensures !autoAdd ==> valuesMap == old(valuesMap)
      ensures forall n :: n in valuesMap && n !in old(valuesMap) ==> n in orderedModelNamesMap
      ensures forall n :: n in orderedModelNamesMap && n !in old(orderedModelNamesMap) ==> rank[n] < rank[name]
      ensures valuesMap[name].depends == [] ==> valuesMap == old(valuesMap) && orderedModelNames == old(orderedModelNames)
    {
      var dep := valuesMap[name];
      for i := 0 to |dep.depends|
        invariant Valid()
        invariant name in valuesMap && valuesMap[name] == dep
        invariant name !in orderedModelNamesMap
        invariant old(orderedModelNamesMap) <= orderedModelNamesMap
        invariant old(orderedModelNames) <= orderedModelNames
        invariant old(valuesMap).Keys <= valuesMap.Keys
        invariant forall n :: n in valuesMap && n !in old(valuesMap) ==> n in orderedModelNamesMap
        invariant !autoAdd ==> valuesMap == old(valuesMap)
        invariant dep.depends == [] ==> valuesMap == old(valuesMap) && orderedModelNames == old(orderedModelNames)
        invariant forall n :: n in orderedModelNamesMap && n !in old(orderedModelNamesMap) ==> rank[n] < rank[name]
        invariant Settled(dep.depends[..i], valuesMap, autoAdd, orderedModelNamesMap)
      {
        var d := dep.depends[i];
        ghost var placedBefore := orderedModelNamesMap;
        ghost var mapBefore := valuesMap;
        InsertDependency(name, d);
        SettledExtend(dep.depends, i, mapBefore, valuesMap, autoAdd, placedBefore, orderedModelNamesMap);
      }
      FullSlice(dep.depends);
    }

    /**
     * One turn of insertIntoOrderedList's loop over the dependencies of
     * `parent`: a registered dependency is inserted; an unregistered one is
     * parsed from the registry and inserted with autoAdd, skipped without.
     */
    method InsertDependency(parent: string, d: string)
      requires Valid() && parent in valuesMap && d in valuesMap[parent].depends
      requires parent !in orderedModelNamesMap
      modifies this
      decreases rank[parent], 0
      ensures Valid()
      ensures parent in valuesMap && valuesMap[parent] == old(valuesMap[parent])
      ensures old(orderedModelNamesMap) <= orderedModelNamesMap
      ensures old(orderedModelNames) <= orderedModelNames
      ensures old(valuesMap).Keys <= valuesMap.Keys
      ensures forall n :: n in valuesMap && n !in old(valuesMap) ==> n in orderedModelNamesMap
      ensures !autoAdd ==> valuesMap == old(valuesMap)
      ensures (autoAdd || d in valuesMap) ==> d in orderedModelNamesMap
      ensures forall n :: n in orderedModelNamesMap && n !in old(orderedModelNamesMap) ==> rank[n] < rank[parent]
    {
      assert d in Depends(universe[parent]);
      if d in valuesMap {
        Insert(d);
      } else if autoAdd {
        Adopt(parent, d);
        Insert(d);
      }
    }

    /**
     * The autoAdd branch of insertIntoOrderedList: parses the referenced
     * model from the registry, recording (as ghost state) the parent that
     * referenced it.
     */
    method Adopt(parent: string, d: string)
      requires Valid() && autoAdd && parent in valuesMap && d in valuesMap[parent].depends
      requires parent !in orderedModelNamesMap && d !in valuesMap
      modifies this
      ensures Valid()
      ensures d in registry && valuesMap == old(valuesMap)[d := Dependency(registry[d], Depends(registry[d]))]
      ensures orderedModelNames == old(orderedModelNames)
      ensures orderedModelNamesMap == old(orderedModelNamesMap)
    {
      assert d in Depends(universe[parent]);
      RegisterKeepsValid(registry, universe, rank, valuesMap, orderedModelNames, orderedModelNamesMap, d);
      ghost var vm := valuesMap[d := Dependency(registry[d], Depends(registry[d]))];
      ghost var parents := parentOf[d := parent];
      RegisterKeepsAdopted(supplied, parentOf, valuesMap, orderedModelNames, orderedModelNamesMap, vm[d], parent, d);
      parentOf := parents;
      ParseDependence(registry[d], autoAdd);
    }

    /** The second loop of ReorderModels: places each supplied table in turn. */
    method InsertAll(names: seq<string>)
      requires Valid() && forall n :: n in names ==> n in valuesMap
      modifies this
      ensures Valid()
      ensures forall n :: n in names ==> n in orderedModelNamesMap
      ensures forall n :: n in valuesMap && n !in old(valuesMap) ==> n in orderedModelNamesMap
      ensures !autoAdd ==> valuesMap == old(valuesMap)
      ensures old(orderedModelNames) == [] && (forall n :: n in names ==> valuesMap[n].depends == []) ==>
                valuesMap == old(valuesMap) && orderedModelNames == Dedup(names)
    {
      ghost var noEdges := old(orderedModelNames) == [] && forall n :: n in names ==> valuesMap[n].depends == [];
      for i := 0 to |names|
        invariant Valid()
        invariant forall j :: 0 <= j < |names| ==> names[j] in valuesMap
        invariant forall n :: n in valuesMap && n !in old(valuesMap) ==> n in orderedModelNamesMap
        invariant !autoAdd ==> valuesMap == old(valuesMap)
        invariant Settled(names[..i], valuesMap, true, orderedModelNamesMap)
        invariant noEdges ==> valuesMap == old(valuesMap) && orderedModelNames == Dedup(names[..i])
      {
        ghost var placedBefore := orderedModelNamesMap;
        ghost var orderBefore := orderedModelNames;
        ghost var mapBefore := valuesMap;
        Insert(names[i]);
        SettledExtend(names, i, mapBefore, valuesMap, true, placedBefore, orderedModelNamesMap);
        if noEdges {
          DedupStep(names, i, placedBefore, orderBefore, orderedModelNames);
        }
      }
      FullSlice(names);
    }
  }

  /**
   * What ReorderModels promises of its result: each table once, every
   * table after the tables it depends on (all of them with autoAdd, the
   * supplied ones otherwise), every supplied table present with its
   * registered descriptor, and nothing else but referenced descriptors from
   * the registry (with autoAdd) or nothing else at all (without).
   */
  ghost predicate Reordered(values: seq<Schema>, autoAdd: bool, registry: map<string, Schema>, results: seq<Schema>)
  {
    && Distinct(TablesOf(results))
    && (forall i, d :: 0 <= i < |results| && d in Depends(results[i]) && (autoAdd || d in Registered(values)) ==>
          d in TablesOf(results[..i]))
    && (forall t :: t in Registered(values) ==> t in TablesOf(results))
    && (forall r :: r in results && r.table in Registered(values) ==> r == Registered(values)[r.table])
    && (!autoAdd ==> forall r :: r in results ==> r.table in Registered(values))
    && (autoAdd ==> forall r :: r in results && r.table !in Registered(values) ==> r.table in registry && r == registry[r.table])
  }

  /** A result that was not supplied is there only because a later result depends on it. */
  ghost predicate OnlyReferenced(values: seq<Schema>, results: seq<Schema>)
  {
    forall i :: 0 <= i < |results| && results[i].table !in Registered(values) ==>
      exists k :: i < k < |results| && results[i].table in Depends(results[k])
  }

  /**
   * ReorderModels: the supplied models, plus (with autoAdd) the referenced
   * models that were not supplied, each of these before a model that
   * depends on it, each table once, every table after the
   * tables it depends on; without dependency edges, the supplied order with
   * repeats dropped.
   */
  method ReorderModels(values: seq<Schema>, autoAdd: bool, registry: map<string, Schema>, ghost rank: map<string, nat>)
    returns (results: seq<Schema>)
    requires autoAdd ==> Coherent(registry) && Closed(Universe(values, registry, true))
    requires Acyclic(Universe(values, registry, autoAdd), rank)
    ensures Reordered(values, autoAdd, registry, results)
    ensures OnlyReferenced(values, results)
    ensures NoEdges(values) ==> TablesOf(results) == Dedup(TablesOf(values))
  {
    ghost var universe := Universe(values, registry, autoAdd);
    var st := new ModelOrder(autoAdd, registry, universe, rank, Registered(values).Keys);
    st.ParseAll(values);
    ParsedValid(values, registry, autoAdd, rank);
    assert st.Valid();

    var names := st.modelNames;
    ghost var parsed := st.valuesMap;
    NoEdgesParsed(values);
    st.InsertAll(names);

    var vm := st.valuesMap;
    var ordered := st.orderedModelNames;
    ghost var placed := st.orderedModelNamesMap;
    assert forall n :: n in vm ==> n in placed by {
      forall n | n in vm ensures n in placed {
        if n in parsed {
          assert n in names;
        }
      }
    }
    results := Collect(ordered, vm);
    ParsedSourced(values, registry, autoAdd, rank, vm);
    OrderedResults(values, registry, autoAdd, ordered, placed, vm, results);
    AdoptedResults(values, autoAdd, registry, st.parentOf, ordered, placed, vm, results);
  }

  /** The descriptors of the placed tables, in placement order. */
  method Collect(ordered: seq<string>, vm: map<string, Dependency>) returns (results: seq<Schema>)
    requires forall i :: 0 <= i < |ordered| ==> ordered[i] in vm
    ensures |results| == |ordered|
    ensures forall j :: 0 <= j < |results| ==> results[j] == vm[ordered[j]].schema
  {
    results := [];
    for i := 0 to |ordered|
      invariant |results| == i
      invariant forall j :: 0 <= j < i ==> results[j] == vm[ordered[j]].schema
    {
      results := results + [vm[ordered[i]].schema];
    }
  }

  /**
   * Each parsed model is stored under its own table, with the tables its
   * descriptor depends on; a supplied table has its registered descriptor,
   * any other one (only with autoAdd) the registry's.
   */
  ghost predicate Sourced(values: seq<Schema>, autoAdd: bool, registry: map<string, Schema>, vm: map<string, Dependency>)
  {
    forall n :: n in vm ==>
      && vm[n].schema.table == n
      && vm[n].depends == Depends(vm[n].schema)
      && (n in Registered(values) ==> vm[n].schema == Registered(values)[n])
      && (n !in Registered(values) ==> autoAdd && n in registry && vm[n].schema == registry[n])
  }

  lemma ParsedSourced(values: seq<Schema>, registry: map<string, Schema>, autoAdd: bool, rank: map<string, nat>,
                      vm: map<string, Dependency>)
    requires Parsed(autoAdd, registry, Universe(values, registry, autoAdd), rank, vm)
    ensures Sourced(values, autoAdd, registry, vm)
  {
    UniverseTables(values, registry, autoAdd);
  }

  /** What a valid final placement says about the descriptors collected from it. */
  lemma OrderedResults(values: seq<Schema>, registry: map<string, Schema>, autoAdd: bool,
                       ordered: seq<string>, placed: set<string>, vm: map<string, Dependency>, results: seq<Schema>)
    requires Sourced(values, autoAdd, registry, vm)
    requires Placed(ordered, placed, vm, autoAdd)
    requires !autoAdd ==> vm.Keys == Registered(values).Keys
    requires forall t :: t in Registered(values) ==> t in placed
    requires |results| == |ordered| && forall j :: 0 <= j < |results| ==> results[j] == vm[ordered[j]].schema
    requires NoEdges(values) ==> ordered == Dedup(TablesOf(values))
    ensures Reordered(values, autoAdd, registry, results)
    ensures NoEdges(values) ==> TablesOf(results) == Dedup(TablesOf(values))
  {
    ResultTables(ordered, vm, results);
    ResultDependenciesFirst(ordered, vm, autoAdd, Registered(values).Keys, results);
  }

  /** Collected descriptors keep the placement's dependencies-first order. */
  lemma ResultDependenciesFirst(ordered: seq<string>, vm: map<string, Dependency>, autoAdd: bool,
                                supplied: set<string>, results: seq<Schema>)
    requires DependenciesFirst(ordered, vm, autoAdd)
    requires forall n :: n in vm ==> vm[n].depends == Depends(vm[n].schema)
    requires !autoAdd ==> vm.Keys == supplied
    requires TablesOf(results) == ordered
    requires |results| == |ordered| && forall j :: 0 <= j < |results| ==> results[j] == vm[ordered[j]].schema
    ensures forall i, d :: 0 <= i < |results| && d in Depends(results[i]) && (autoAdd || d in supplied) ==>
              d in TablesOf(results[..i])
  {
    forall i, d | 0 <= i < |results| && d in Depends(results[i]) && (autoAdd || d in supplied)
      ensures d in TablesOf(results[..i])
    {
      assert d in vm[ordered[i]].depends;
      assert TablesOf(results[..i]) == ordered[..i];
    }
  }

  lemma ResultTables(ordered: seq<string>, vm: map<string, Dependency>, results: seq<Schema>)
    requires forall n :: n in vm ==> vm[n].schema.table == n
    requires forall i :: 0 <= i < |ordered| ==> ordered[i] in vm
    requires |results| == |ordered| && forall j :: 0 <= j < |results| ==> results[j] == vm[ordered[j]].schema
    ensures TablesOf(results) == ordered
  {
  }

  lemma FullSlice(s: seq<string>)
    ensures s[..|s|] == s
  {
  }

  /** Without dependencies, placing names[i] extends the deduplicated prefix by one step. */
  lemma DedupStep(names: seq<string>, i: nat, placedBefore: set<string>, orderBefore: seq<string>, order: seq<string>)
    requires i < |names|
    requires orderBefore == Dedup(names[..i])
    requires forall n :: n in placedBefore <==> n in orderBefore
    requires names[i] in placedBefore ==> order == orderBefore
    requires names[i] !in placedBefore ==> order == orderBefore + [names[i]]
    ensures order == Dedup(names[..i + 1])
  {
    assert names[..i + 1][..i] == names[..i];
  }

  /** Every descriptor the ordering may consult is stored under its own table. */
  lemma UniverseTables(values: seq<Schema>, registry: map<string, Schema>, autoAdd: bool)
    requires autoAdd ==> Coherent(registry)
    ensures forall t :: t in Universe(values, registry, autoAdd) ==> Universe(values, registry, autoAdd)[t].table == t
    ensures forall t :: t in Registered(values) ==>
              (t in Universe(values, registry, autoAdd) && Universe(values, registry, autoAdd)[t] == Registered(values)[t])
  {
  }

  /** Without edges among the supplied models, no parsed model has a dependency. */
  lemma NoEdgesParsed(values: seq<Schema>)
    ensures NoEdges(values) ==> forall t :: t in TablesOf(values) ==> ParsedModels(values)[t].depends == []
  {
    if NoEdges(values) {
      forall t | t in TablesOf(values) ensures ParsedModels(values)[t].depends == [] {
        var s := Registered(values)[t];
        var i :| 0 <= i < |values| && values[i] == s;
      }
    }
  }
}
