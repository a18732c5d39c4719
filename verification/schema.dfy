/**
 * Schema descriptors, as the metadata parser hands them to the migrator.
 * The parser itself (reflection over model structs) is not part of this
 * model: descriptors are inputs. Maps the parser returns and the migrator
 * iterates (indexes, check constraints) are sequences here, in the order
 * one run happens to visit them.
 */
module Schema {
  import opened Wrappers

  /** A column of a model's table. */
  datatype Field = Field(
    name: string,
    dbName: string,
    dbDataType: string,
    autoIncrement: bool,
    notNull: bool,
    unique: bool,
    defaultValue: string)

  /**
   * A foreign-key constraint. `schema` is the table that owns the foreign
   * key and `referenceSchema` the table it points at; the source compares
   * the two schema objects, the model their table names.
   */
  datatype Constraint = Constraint(
    name: string,
    field: Field,
    schema: string,
    referenceSchema: string,
    foreignKeys: seq<Field>,
    references: seq<Field>,
    onDelete: string,
    onUpdate: string)

  /** A relationship, with the constraint it yields (if any) and its join table (many-to-many). */
  datatype Relationship = Relationship(name: string, constraint: Option<Constraint>, joinTable: Option<string>)

  /** One column of an index definition. */
  datatype IndexOption = IndexOption(field: Field, expression: string, length: int, collate: string, sort: string)

  datatype Index = Index(name: string, indexClass: string, indexType: string, comment: string, fields: seq<IndexOption>)

  datatype CheckConstraint = CheckConstraint(name: string, constraint: string)

  datatype Schema = Schema(
    table: string,
    dbNames: seq<string>,
    fieldsByDBName: map<string, Field>,
    fieldsByName: map<string, Field>,
    primaryFields: seq<Field>,
    relationships: seq<Relationship>,
    indexes: seq<Index>,
    checks: seq<CheckConstraint>)

  /** What the parser guarantees: every column name in DBNames has its field. */
  predicate WellFormed(s: Schema)
  {
    forall n :: n in s.dbNames ==> n in s.fieldsByDBName
  }

  /** Schema.LookUpField: by column name first, then by struct field name. */
  function LookUpField(s: Schema, name: string): (r: Option<Field>)
    ensures r.Some? <==> name in s.fieldsByDBName || name in s.fieldsByName
    ensures name in s.fieldsByDBName ==> r == Some(s.fieldsByDBName[name])
  {
    if name in s.fieldsByDBName then Some(s.fieldsByDBName[name])
    else if name in s.fieldsByName then Some(s.fieldsByName[name])
    else None
  }

  /** The first index with the given name (ParseIndexes keys its map by name). */
  function FindIndex(indexes: seq<Index>, name: string): (r: Option<Index>)
    ensures r.Some? <==> exists i :: 0 <= i < |indexes| && indexes[i].name == name
    ensures r.Some? ==> r.value in indexes && r.value.name == name
  {
    if indexes == [] then None
    else if indexes[0].name == name then Some(indexes[0])
    else FindIndex(indexes[1..], name)
  }

  /** Whether a relationship contributes a dependency edge. */
  predicate AddsEdge(rel: Relationship)
  {
    rel.constraint.Some? && rel.constraint.value.schema != rel.constraint.value.referenceSchema
  }

  /**
   * The tables a model depends on: for each relationship, in order, the
   * referenced table of its constraint, unless the constraint's own schema
   * is the referenced one.
   */
  function DependsOn(rels: seq<Relationship>): (d: seq<string>)
    ensures |d| <= |rels|
    ensures forall t :: t in d <==> exists i :: 0 <= i < |rels| && AddsEdge(rels[i]) && rels[i].constraint.value.referenceSchema == t
  {
    if rels == [] then []
    else
      var init := DependsOn(rels[..|rels| - 1]);
      var last := rels[|rels| - 1];
      assert forall i :: 0 <= i < |rels| - 1 ==> rels[..|rels| - 1][i] == rels[i];
      if AddsEdge(last) then init + [last.constraint.value.referenceSchema] else init
  }

  function Depends(s: Schema): seq<string>
  {
    DependsOn(s.relationships)
  }
}
