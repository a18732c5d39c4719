# gorm's generic migrator and clause composition, in Dafny

This project models three parts of gorm, the Go ORM.

- **The generic `Migrator`** (`migrator/migrator.go`). It covers:
  - the dependency ordering of models (`ReorderModels`);
  - the DDL it assembles as a `?` template plus an ordered list of bound values: `CREATE TABLE`, the foreign-key text of `buildConstraint`, `BuildIndexOptions`, `CREATE INDEX`, and the four column operations guarded by a field lookup;
  - `DataTypeOf`;
  - `CreateTable`, `DropTable` and `CreateIndex` as sequences of executed statements;
  - the unsupported views;
  - the decisions `AutoMigrate` takes against the catalog of existing tables, columns and constraints.
- **`Clause`** (`clause/clause.go`): its five slots, their default space-separated rendering into a `Builder`, and the hand-over to a custom `ClauseBuilder`.
- **The `LIMIT` clause** (`clause/limit.go`): its text and how it merges into an existing clause.

Modules:

- `Wrappers`: `Option` and `Result`.
- `Strings`: the standard-library string helpers the code relies on, namely `strconv.Itoa`, `strings.ToUpper`, `Contains` and `TrimSuffix`, plus a count of `?` markers.
- `Clause`:
  - `Column` and `Table`, the `PrimaryKey`/`CurrentTable` sentinels, bound values, the `Builder` class and `Clause.Build`;
  - `Limit` with `Name`, `Build` and `MergeClause`.
- `Schema`: the parsed schema descriptors the migrator consumes, namely fields, relationships and their constraints, indexes and check constraints.
- `Reorder`: `ReorderModels`. It is a class holding the function's local state, `valuesMap`, `modelNames`, `orderedModelNames` and `orderedModelNamesMap`. Methods mirror `parseDependence` and the recursive `insertIntoOrderedList`.
- `Ddl`: `DataTypeOf`, `buildConstraint`, `BuildIndexOptions` and the `CREATE INDEX` text. Each is a specification function plus a method that builds the same text step by step as the code does.
- `CreateTableSql`: the `CREATE TABLE` statement. It is specified as a list of entries (columns, primary key, inline indexes, foreign keys, checks), each rendered to a comma-terminated fragment. It is built by the same loops as the code.
- `Migrator`:
  - a `Database` whose `Exec` appends to a log;
  - a `Migrator` class whose methods execute what the code executes, in the code's order (with `CreateIndexAfterCreateTable`, a model's indexes are created before its table; see Findings);
  - the properties of the resulting logs.
- `AutoMigrate`: a `Catalog` class, with the tables, columns and constraints that `HasTable`/`HasColumn`/`HasConstraint` probe and the creations asked of it. Model-by-model runs are specified as functions on catalog states.

Two quirks of `AutoMigrate` are kept:

- The check-constraint loop sits inside the relationship loop (`migrator/migrator.go:67-82`). As a result, a model without relationships never has its check constraints created.
- Columns come from a Go map (`:59`), so their order is a parameter. `ColumnsOrderFree` shows the order does not affect the outcome.

Where the code and its documented behaviour differ, the model follows the code:

- The "avoid loop" guard of `insertIntoOrderedList` (`migrator/migrator.go:517-519`) checks the placed mark, but that mark is set only after the recursion (`:531-532`). A mutual reference A↔B therefore recurses without end, although the ordering is described as terminating on cycles. `ReorderModels`, and every operation built on it, requires an acyclic dependency graph, witnessed by a ghost rank that strictly decreases along every edge.

## Model

| member | source | states |
|---|---|---|
| Strings.DecimalRoundTrip | clause/limit.go:20-24 | Reading back the decimal digits `strconv.Itoa` writes for a natural number gives that number |
| Strings.ToUpper | migrator/migrator.go:115 | Same length; every character is mapped by `UpperChar` |
| Strings.UpperChar | migrator/migrator.go:115 | The upper case is an ASCII capital exactly when the character is an ASCII letter, the dotless i or the long s; small letters move up by 32, ı becomes I and ſ becomes S |
| Strings.TrimSuffix | migrator/migrator.go:177 | With the suffix present, the result followed by the suffix is the input; otherwise the input is unchanged |
| Schema.LookUpField | migrator/migrator.go:220 | A field is found exactly when the name is a column name or a struct field name; a column name resolves to its own field |
| Schema.FindIndex | migrator/migrator.go:413-415 | An index is found exactly when some index carries the name, and the one found is an index of the schema with that name |
| Schema.DependsOn | migrator/migrator.go:503-507 | A table is a dependency exactly when some relationship has a constraint whose referenced table differs from its own schema; a self-reference adds no edge; at most one dependency per relationship |
| Reorder.Registered | migrator/migrator.go:509 | The parsed models are keyed by exactly the supplied tables, each holding a supplied descriptor of that table (the later one wins) |
| Reorder.ParsedModels | migrator/migrator.go:535-537 | After the parse loop, `valuesMap` has exactly the supplied tables, each with its descriptor and the tables that descriptor depends on |
| Reorder.Dedup | migrator/migrator.go:517-519 | The deduplicated sequence has no repeats and the same elements as its input |
| Reorder.ModelOrder.constructor | migrator/migrator.go:490-495 | The ordering starts with no parsed model, no name, an empty order and nothing placed |
| Reorder.ModelOrder.ParseDependence | migrator/migrator.go:497-514 | The model is stored under its table with the tables it depends on; its table is appended to `modelNames` exactly when `addToList` is set; the order is untouched |
| Reorder.ModelOrder.ParseAll | migrator/migrator.go:535-537 | After the first loop `valuesMap` is the parsed models and `modelNames` the supplied tables in input order |
| Reorder.ModelOrder.Insert | migrator/migrator.go:516-533 | Keeps the state valid (each table placed once, after its dependencies, and every model that was not supplied placed before the model that pulled it in); the name ends up placed; the earlier order is a prefix of the new one; every model registered on the way is placed; without autoAdd no model is registered; an already placed name leaves the order unchanged; a fresh name without dependencies is appended once |
| Reorder.ModelOrder.InsertDependencies | migrator/migrator.go:521-530 | The dependency loop leaves every dependency of the name settled and the name itself unplaced; it only extends the order, places every model it registers, and places only names of lower rank |
| Reorder.ModelOrder.Place | migrator/migrator.go:531-532 | Appending a name whose dependencies are settled adds it to the end of the order and to the placed set and keeps the state valid |
| Reorder.ModelOrder.Adopt | migrator/migrator.go:525-527 | With autoAdd, a dependency that has no model yet is registered from the referenced model, with the tables that model depends on, and the order is untouched |
| Reorder.ModelOrder.InsertDependency | migrator/migrator.go:522-529 | A registered dependency is placed; an unregistered one is registered from the referenced model and placed with autoAdd, and skipped without it; the parent's entry is unchanged; the earlier order is a prefix of the new one, and every model registered on the way is placed |
| Reorder.ModelOrder.InsertAll | migrator/migrator.go:539-541 | Every supplied table is placed; without dependencies the order is the supplied tables with repeats dropped |
| Reorder.ReorderModels | migrator/migrator.go:484-547 | The result lists each table once. Each model comes after every table it depends on (all of them with autoAdd, the supplied ones without). Every supplied table appears, with its registered descriptor. With autoAdd, a model that was not supplied is a registry model and appears only before a later model that depends on it; without autoAdd, nothing is added. Without dependency edges, the result is the input order with repeated tables dropped |
| Reorder.Collect | migrator/migrator.go:543-545 | The results are the descriptors of the placed tables, in placement order |
| Reorder.AppendKeepsOrder | migrator/migrator.go:531-532 | Appending a table whose dependencies are all placed keeps every table once and after its dependencies |
| Reorder.RegisterKeepsValid | migrator/migrator.go:525-527 | With autoAdd, registering an unsupplied referenced model keeps the state valid |
| Reorder.AppendKeepsAdopted | migrator/migrator.go:531-532 | Appending a name whose dependencies are placed keeps every adopted model before the model that pulled it in |
| Reorder.RegisterKeepsAdopted | migrator/migrator.go:525-527 | Registering a dependency of a not yet placed model, with that model as its parent, keeps every adopted model before the model that pulled it in |
| Reorder.AdoptedResults | migrator/migrator.go:521-545 | Once every model is placed, each result that was not supplied is followed by a result that depends on it |
| Reorder.ResultDependenciesFirst | migrator/migrator.go:543-545 | Collecting descriptors in placement order keeps every dependency before its dependent |
| Reorder.DedupStep | migrator/migrator.go:539-541 | Without dependencies, inserting the next supplied name extends the deduplicated prefix by one step |
| Reorder.NoEdgesParsed | migrator/migrator.go:503-507 | When no supplied model has an edge, no parsed model depends on anything |
| Ddl.DataTypeOfDialects | migrator/migrator.go:40-46 | Two configurations give a field the same type exactly when the field has its own `DBDataType` or both dialects agree on it |
| Ddl.Columns | migrator/migrator.go:313-320 | (definition) One column per field, in order, each named after the field's column |
| Ddl.BuildConstraint | migrator/migrator.go:303-323 | The text and values built step by step are the constraint's template text and its four values |
| Ddl.ConstraintShape | migrator/migrator.go:303-322 | Exactly four values: the constraint name, the foreign-key columns in order, the referenced table and the referenced columns in order. The text starts with the fixed template. With plain referential actions it has one marker per value |
| Ddl.ConstraintActions | migrator/migrator.go:304-311 | No action gives the bare template. ON DELETE with its action directly follows the template when set. ON UPDATE (with its two spaces) and its action end the text when set. Without ON DELETE the text is the template and the ON UPDATE part alone; without ON UPDATE, the template and the ON DELETE part alone; the text starts with the template and ` ON DELETE ` exactly when ON DELETE is set |
| Ddl.UnsetAction | migrator/migrator.go:304-311 | An unset action contributes nothing: the text is the template followed by the other action's part, if that one is set |
| Ddl.DeleteClauseOnlyWhenSet | migrator/migrator.go:304-307 | The text starts with the template and ` ON DELETE ` exactly when ON DELETE is set |
| Ddl.ConstraintMarkers | migrator/migrator.go:304-311 | With no `?` in the actions, the constraint text has exactly four markers |
| Ddl.IndexOptionValues | migrator/migrator.go:385-404 | One expression per index option |
| Ddl.BuildIndexOptions | migrator/migrator.go:385-404 | The loop yields the expressions of the options' texts, in order |
| Ddl.BuildIndexOption | migrator/migrator.go:387-400 | The body of the loop builds exactly one option's text |
| Ddl.IndexOptionShape | migrator/migrator.go:387-400 | An option's text starts with its expression when set. Otherwise it starts with the quoted column, followed by `(length)` when the length is positive; with no expression and no positive length it is exactly the quoted column, the collation part and the sort part. A set sort direction ends the text |
| Ddl.BuildCreateIndex | migrator/migrator.go:416-433 | The statement built step by step is the index's CREATE INDEX statement |
| Ddl.IndexStmtShape | migrator/migrator.go:416-433 | The values are the index name, the table and the option list, plus the comment exactly when there is one. The text starts with `CREATE`, the optional class and `INDEX ? ON ??`. With no `?` in class and type, it has one marker per value |
| Ddl.IndexMarkers | migrator/migrator.go:419-432 | The CREATE INDEX text has four markers with a comment and three without |
| CreateTableSql.PrimaryKeyInTypes | migrator/migrator.go:115 | `hasPrimaryKeyInDataType` is set exactly when some visited column's type contains PRIMARY KEY in any letter case |
| CreateTableSql.ColumnEntries | migrator/migrator.go:112-116 | (definition) One column entry per name of `DBNames`, in order, with that column's field |
| CreateTableSql.IndexEntries | migrator/migrator.go:147-153 | (definition) One inline index entry per index, in order |
| CreateTableSql.ForeignKeyEntries | migrator/migrator.go:156-161 | At most one constraint entry per relationship, and every entry is a constraint |
| CreateTableSql.CheckEntries | migrator/migrator.go:172-175 | (definition) One check entry per check constraint, in order |
| CreateTableSql.FragmentShape | migrator/migrator.go:114-174 | Every appended fragment ends with a comma. A fragment whose referential actions have no `?` adds as many markers as values |
| CreateTableSql.ModifierMarkers | migrator/migrator.go:118-133 | The modifiers carry a marker exactly when there is a default value |
| CreateTableSql.FragmentsBalanced | migrator/migrator.go:112-175 | Concatenated plain fragments have one marker per value |
| CreateTableSql.EntriesNonEmpty | migrator/migrator.go:112-145 | Every statement has an entry: a column, or else the primary key |
| CreateTableSql.EntriesOrdered | migrator/migrator.go:112-175 | Columns come first, then the primary key, inline indexes, foreign keys and checks |
| CreateTableSql.ColumnsInOrder | migrator/migrator.go:112-135 | The first entries are the columns of `DBNames` in order, each with its field, and no later entry is a column |
| CreateTableSql.PrimaryKeyEntry | migrator/migrator.go:137-145 | A PRIMARY KEY entry listing the primary fields is present exactly when no column type declares PRIMARY KEY, and it is the only such entry |
| CreateTableSql.InlineIndexes | migrator/migrator.go:147-154 | Indexes are declared inline only when they are not created after the table, and then every index is declared |
| CreateTableSql.ForeignKeysOfRelationships | migrator/migrator.go:156-161 | A constraint is declared exactly when some relationship yields it |
| CreateTableSql.CreateTableText | migrator/migrator.go:107-179 | The text is `CREATE TABLE ? (`, the fragments with their single trailing comma dropped, and `)`. The table is the first value, followed by the fragments' values in entry order |
| CreateTableSql.CreateTableBalanced | migrator/migrator.go:106-180 | With no `?` in the referential actions, the statement has one marker per value |
| CreateTableSql.HeaderMarkers | migrator/migrator.go:107 | The header has one marker, for the table, and the closing parenthesis none |
| CreateTableSql.BuildCreateTable | migrator/migrator.go:106-180 | The text and values built by the loops, the trim and the closing parenthesis are the schema's CREATE TABLE statement |
| CreateTableSql.AppendColumns | migrator/migrator.go:112-135 | The column loop appends one column fragment per name of `DBNames` and computes `hasPrimaryKeyInDataType` |
| CreateTableSql.BuildColumn | migrator/migrator.go:114-134 | One column's text is `? ?`, then the modifiers in the order AUTO_INCREMENT, NOT NULL, UNIQUE, DEFAULT ?, then a comma. Its values are the column, its type and the default when set |
| CreateTableSql.AppendPrimaryKey | migrator/migrator.go:137-145 | Appends `PRIMARY KEY ?,` bound to the list of primary-field columns, in order |
| CreateTableSql.AppendIndexes | migrator/migrator.go:147-154 | Appends `INDEX ? ?,` with the name and option list of each index, in order |
| CreateTableSql.AppendConstraints | migrator/migrator.go:156-161 | Appends the constraint text and values of each relationship that has a constraint, in order |
| CreateTableSql.AppendChecks | migrator/migrator.go:172-175 | Appends `CONSTRAINT ? CHECK ?,` with the name and expression of each check, in order |
| Migrator.Database.Exec | migrator/migrator.go:180 | Executing a statement appends it to the log |
| Migrator.ColumnOpGuard | migrator/migrator.go:218-282 | A column operation fails, with the lookup error naming the name given, exactly when the name is neither a column nor a field name. Otherwise its statement binds the table first and the resolved field's column. RenameColumn binds the naming strategy's old column name before it. ADD and ALTER bind the column type. Every such statement has one marker per value |
| Migrator.Migrator.ColumnOperation | migrator/migrator.go:218-282 | A resolved name executes the operation's statement and returns no error. An unresolved one executes nothing and returns the lookup error |
| Migrator.Migrator.AddColumn | migrator/migrator.go:218-228 | Executes `ALTER TABLE ? ADD ? ?` for a resolved field; otherwise nothing, with the lookup error |
| Migrator.Migrator.DropColumn | migrator/migrator.go:230-239 | Executes `ALTER TABLE ? DROP COLUMN ?` for a resolved field; otherwise nothing, with the lookup error |
| Migrator.Migrator.AlterColumn | migrator/migrator.go:241-251 | Executes `ALTER TABLE ? ALTER COLUMN ? TYPE ?` for a resolved field; otherwise nothing, with the lookup error |
| Migrator.Migrator.RenameColumn | migrator/migrator.go:271-282 | Executes `ALTER TABLE ? RENAME COLUMN ? TO ?` for a resolved field; otherwise nothing, with the lookup error |
| Migrator.NamedIndexStmtsShape | migrator/migrator.go:415-434 | Creating by index name issues one statement when the name names an index and none otherwise, and it creates one of the schema's indexes |
| Migrator.OptionIndexStmtsShape | migrator/migrator.go:437-443 | One creation per option of an index that is on the field |
| Migrator.FieldIndexStmtsShape | migrator/migrator.go:435-445 | Over all indexes, one creation per option on the field, each creating one of the schema's indexes |
| Migrator.IndexFoundByName | migrator/migrator.go:439 | Every index of the schema is found by its own name, so the by-name calls take the first branch |
| Migrator.CreateIndexOutcome | migrator/migrator.go:410-448 | CreateIndex succeeds exactly when the name names an index, or names a field some index option is on. An index name issues that index's statement alone. A field issues one statement per option on it. Every statement creates one of the schema's indexes, and the error names the name |
| Migrator.Migrator.CreateIndex | migrator/migrator.go:410-448 | On success the log grows by exactly the planned statements and no error is returned; on failure nothing is executed and the error is returned |
| Migrator.Migrator.CreateFoundIndex | migrator/migrator.go:415-434 | For an existing index name, executes that index's statement |
| Migrator.Migrator.CreateIndexesOn | migrator/migrator.go:437-443 | Executes one by-name creation per option on the field; the error is cleared as soon as one creation happens |
| Migrator.DropLog | migrator/migrator.go:195 | (definition) One `DROP TABLE ?` statement per dropped table, in order |
| Migrator.DroppedMembers | migrator/migrator.go:189-199 | A table is dropped exactly when it is among the reordered models and the database has it |
| Migrator.DroppedOnce | migrator/migrator.go:190-192 | With distinct tables in the order, no table is dropped twice |
| Migrator.DroppedReversed | migrator/migrator.go:190-192 | Of two present models, the later in the order is dropped first |
| Migrator.DropTableOrder | migrator/migrator.go:188-202 | DropTable drops, once each, exactly the supplied tables the database has. A table referencing another supplied, present table is dropped before it |
| Migrator.Migrator.DropTable | migrator/migrator.go:188-202 | Reorders without autoAdd, then executes the drop log of that order walked back to front |
| Migrator.Migrator.DropInReverse | migrator/migrator.go:190-200 | The reverse loop executes `DROP TABLE ?` for each present model, last first |
| Migrator.IndexesAfterShape | migrator/migrator.go:147-149 | Creating a model's indexes by name issues one statement per index, each creating one of its indexes |
| Migrator.IndexBeforeTable | migrator/migrator.go:147-180 | As written, with indexes created after the table, a model with an index has CREATE INDEX executed first and its CREATE TABLE last |
| Migrator.TableBeforeIndexes | migrator/migrator.go:147-180 | Corrected, a model's CREATE TABLE comes first. It is followed by one CREATE INDEX per index when indexes are created after the table, and by nothing otherwise |
| Migrator.OffsetsOrdered | migrator/migrator.go:103-105 | In the log of the whole order, as written or corrected, each model's CREATE TABLE sits within its own block (last in the block as written, first corrected), and every model's CREATE TABLE precedes the block of each later model |
| Migrator.CreateTableOrder | migrator/migrator.go:102-186 | In the statements CreateTable issues, as written and corrected alike, each supplied table's CREATE TABLE precedes the statements of every model that depends on it |
| Migrator.SuppliedDependenciesEarlier | migrator/migrator.go:103 | In the order CreateTable walks, every supplied dependency of a model comes earlier |
| Migrator.CreatedBeforeDependents | migrator/migrator.go:103-105 | Models ordered before their dependents have their CREATE TABLE executed before any statement of those dependents, in the log as written and in the corrected one |
| Migrator.ReorderedModels | migrator/migrator.go:103 | Without autoAdd, the reordered models are supplied models, covering exactly the supplied tables |
| Migrator.CreateView | migrator/migrator.go:295-297 | Always fails with ErrNotImplemented |
| Migrator.DropView | migrator/migrator.go:299-301 | Always fails with ErrNotImplemented |
| Migrator.Migrator.constructor | migrator/migrator.go:15-25 | A migrator over its configuration and database |
| Migrator.Migrator.CreateTable | migrator/migrator.go:102-186 | Reorders without autoAdd, then executes, model by model, the statements in the code's order: with indexes created after the table, the index creations first, then CREATE TABLE |
| Migrator.Migrator.CreateInOrder | migrator/migrator.go:103-105 | The model loop executes each model's statements in turn |
| Migrator.Migrator.CreateOne | migrator/migrator.go:105-180 | One model's turn executes its statements as written: the by-name index creations (when they come after the table) and then its CREATE TABLE |
| Migrator.Migrator.CreateIndexesAfter | migrator/migrator.go:147-149 | Executes a by-name index creation for each of the model's indexes, in order |
| AutoMigrate.CreateTableStep | migrator/migrator.go:53-54 | (definition) Creating a table adds it to the catalog, records the action and changes nothing else |
| AutoMigrate.AddColumnStep | migrator/migrator.go:60-61 | (definition) Adding a column adds it to the catalog, records the action and changes nothing else |
| AutoMigrate.CreateConstraintStep | migrator/migrator.go:69-78 | (definition) Creating a constraint adds it to the catalog, records the action and changes nothing else |
| AutoMigrate.Pending | migrator/migrator.go:85-89 | Exactly the missing join tables are deferred: a deferred table is missing from the catalog and is some relationship's join table, and every relationship's join table that is missing is deferred |
| AutoMigrate.ColumnsCatalog | migrator/migrator.go:59-65 | The column loop leaves the table with every listed column and changes no table or constraint |
| AutoMigrate.ColumnsAdded | migrator/migrator.go:59-65 | The column loop asks for one AddColumn per listed column the table lacks, and for nothing else |
| AutoMigrate.ColumnsOrderFree | migrator/migrator.go:59 | Any two orders in which the column map can be walked leave the same columns and ask for the same additions |
| AutoMigrate.EnsureConstraintAdds | migrator/migrator.go:69-73 | A constraint guarded by HasConstraint ends up present, and is created only when it was missing |
| AutoMigrate.ChecksAdded | migrator/migrator.go:76-82 | The check loop leaves every check constraint present and creates only missing constraints |
| AutoMigrate.RelationAdded | migrator/migrator.go:67-82 | One turn of the relationship loop leaves its constraint and every check constraint present, creating only missing constraints |
| AutoMigrate.RelationsAdded | migrator/migrator.go:67-91 | The relationship loop leaves every relationship constraint present. Check constraints are present when there is a relationship. With no relationship nothing changes at all. Only missing constraints are created |
| AutoMigrate.DeferredAdded | migrator/migrator.go:85-89 | The deferred calls create exactly the pending join tables, the last deferred first |
| AutoMigrate.Reversed | migrator/migrator.go:88 | Deferred creations run in reverse order of deferral |
| AutoMigrate.ModelActions | migrator/migrator.go:52-96 | A missing table is created and nothing else is done for its model. An existing table gets every column and ends with every join table of its relationships. Its constraints and check constraints are created only when it has a relationship, and no constraint at all without one. The deferred join-table creations come last, in reverse |
| AutoMigrate.MigrateCovers | migrator/migrator.go:51-97 | After the model loop every model's table exists, every table that already existed has all its columns, and the join tables of those models' relationships exist, whatever order each column map yielded |
| AutoMigrate.MigratedTables | migrator/migrator.go:48-100 | After AutoMigrate every supplied table exists, and so does every table a migrated model references; for a model whose table existed, so do the join tables of its relationships |
| AutoMigrate.DependencyEarlier | migrator/migrator.go:51 | With autoAdd, every dependency of a migrated model is migrated earlier |
| AutoMigrate.Catalog.CreateTable | migrator/migrator.go:54 | The catalog after CreateTable is the CreateTable step of the catalog before |
| AutoMigrate.Catalog.AddColumn | migrator/migrator.go:61 | The catalog after AddColumn is the AddColumn step of the catalog before |
| AutoMigrate.Catalog.CreateConstraint | migrator/migrator.go:70 | The catalog after CreateConstraint is the CreateConstraint step of the catalog before |
| AutoMigrate.Migrate | migrator/migrator.go:48-100 | Reorders with autoAdd, then leaves the catalog in the state the model-by-model run specifies |
| AutoMigrate.MigrateModels | migrator/migrator.go:51-97 | The model loop performs each model's run in turn |
| AutoMigrate.MigrateModel | migrator/migrator.go:52-96 | One model's turn performs its specified run |
| AutoMigrate.AddMissingColumns | migrator/migrator.go:59-65 | The column loop performs the specified column run and leaves the tables unchanged |
| AutoMigrate.MigrateRelations | migrator/migrator.go:67-91 | The relationship loop performs the specified run and returns the join tables it deferred |
| AutoMigrate.CreateMissingChecks | migrator/migrator.go:76-82 | The check loop performs the specified check run and leaves the tables unchanged |
| AutoMigrate.RunDeferred | migrator/migrator.go:88 | The deferred join-table creations run, the last deferred first |
| Clause.Builder.constructor | clause/clause.go:15-22 | A builder starts with no text and no values |
| Clause.Builder.WriteByte | clause/clause.go:17 | Appends one character to the text |
| Clause.Builder.Write | clause/clause.go:18 | Appends a string to the text |
| Clause.BuildExpression | clause/clause.go:54 | An expression writes its output: the LIMIT text for a Limit, and what the dialect renders otherwise |
| Clause.BuildPieces | clause/clause.go:50-55 | The loop writes the pieces in order, with a space before every piece but the first |
| Clause.RenderSeparators | clause/clause.go:50-53 | For n pieces, the text is n - 1 characters longer than the pieces' own texts, all of them separator spaces |
| Clause.RenderEnds | clause/clause.go:50-54 | The text starts with the first piece's text and ends with the last piece's: nothing before or after |
| Clause.RenderAppend | clause/clause.go:50-54 | Rendering two non-empty runs back to back puts exactly one space between them |
| Clause.Clause.Pieces | clause/clause.go:40-50 | The pieces are the before-expressions, the name token (only when the name is non-empty), the after-name expressions, the expression (only when set) and the after-expressions |
| Clause.Clause.Build | clause/clause.go:36-57 | With a custom builder, Build writes exactly what the builder writes. Otherwise it writes the pieces, separated by single spaces |
| Clause.EmptyClauseWritesNothing | clause/clause.go:40-55 | A clause with no expressions, no name and no custom builder writes nothing |
| Clause.DefaultRenderingOrder | clause/clause.go:40-50 | With every slot filled, the text is before-expressions, name, after-name expressions, expression and after-expressions, each separated from the next by one space |
| Clause.Limit.Build | clause/limit.go:17-27 | Writes the LIMIT text and binds no value |
| Clause.LimitBuildEmpty | clause/limit.go:18 | Nothing is written exactly when Limit is not positive, whatever the offset |
| Clause.LimitTextShape | clause/limit.go:12-26 | A written limit starts with the clause's name `LIMIT` and a space, and contains ` OFFSET ` exactly when the offset is positive |
| Clause.LimitTextRoundTrip | clause/limit.go:17-27 | Reading back the text gives the effective limit: none when Limit ≤ 0, otherwise Limit and the offset when positive |
| Clause.LimitTextInjective | clause/limit.go:17-27 | Two limits write the same text exactly when their effective parts agree |
| Clause.Limit.FilledFrom | clause/limit.go:33-41 | Each non-zero incoming field is kept. A zero field takes the old Limit's value when that value is positive, and is zero otherwise |
| Clause.Limit.MergedInto | clause/limit.go:30-44 | The merged clause has an empty name and the filled Limit as its expression; every other slot is unchanged |
| Clause.Limit.MergeClause | clause/limit.go:30-44 | The clause after the step-by-step merge is the merged clause |
| Clause.MergeIdempotent | clause/limit.go:30-44 | Merging the same Limit twice gives what merging it once gave |
| Clause.MergeFillsGaps | clause/limit.go:33-41 | {Limit: 10} then {Offset: 5} ends as {10, 5}, whatever the clause held |
| Clause.MergeLaterWins | clause/limit.go:34-43 | A later non-zero limit replaces an earlier one |
| Clause.MergeReplacesNonLimit | clause/limit.go:33-43 | A clause whose expression is not a Limit receives the incoming Limit unchanged |
| Clause.MergedClauseRendersOnlyLimit | clause/limit.go:31-43 | A merged clause with no other expressions and no custom builder renders exactly the merged Limit's text |

## Left out

- Reflection and parsing (`RunWithValue`, `stmt.Parse`, `reflect.New`): schema descriptors are inputs. The referenced models that autoAdd pulls in come from a registry keyed by table.
- Catalog probes and queries (`HasTable`, `HasColumn`, `HasConstraint`, `HasIndex`, `CurrentDatabase`, `ColumnTypes`): each probe is membership in a set of tables, columns or constraints. Their SQL is not modelled.
- `CreateConstraint`, `DropConstraint`, `RenameTable`, `DropIndex` and `RenameIndex` are plain statements outside this model. AutoMigrate's catalog records a constraint creation by its name.
- Migrator.Database.Exec: never fails. The early returns on an `Exec` error in CreateTable, DropTable and the column and index operations are therefore not modelled.
- Migrator.Migrator.CreateTable: the deferred creation of many-to-many join tables (`migrator/migrator.go:163-169`) is not modelled. It needs the join model's reflected type, and its error is discarded.
- Migrator.Migrator.CreateTable: the errors of the index creations at `migrator/migrator.go:149` are ignored, as in the code. Those creations always succeed in the model, because they go by an existing index name.
- Migrator.Migrator.CreateIndex: the index option's field is compared by value, where the code compares field pointers.
- AutoMigrate.Catalog.CreateTable: records only that the table exists. The columns and constraints of the new table are not entered in the catalog.
- AutoMigrate.Migrate: `tx.Migrator().CreateTable(value)` inside AutoMigrate is taken as one step. The reordering and join tables of that nested call are not modelled.
- AutoMigrate.MigratedTables: the join tables of a model whose table was missing are created by that nested CreateTable, so they are stated only for models whose table already existed.
- AutoMigrate.ChecksAdded: check constraints are probed in the same constraint set as foreign keys. The code's `HasConstraint` (`migrator/migrator.go:372-383`) reads `referential_constraints` (`:377`), which holds foreign keys only, so it never finds a check: the code asks for `CreateConstraint` of every check on every relationship turn and every run, and a database that rejects the duplicate makes AutoMigrate return that error (`:77-80`). The model creates each check once and never fails.
- AutoMigrate.RelationAdded: inherits the check-constraint probe of `ChecksAdded` above.
- AutoMigrate.RelationsAdded: inherits the check-constraint probe of `ChecksAdded` above.
- Reorder.ReorderModels: requires an acyclic dependency graph (a ghost rank decreasing along every edge). On a cycle the code recurses without end. Nothing is stated for cyclic inputs.
- Strings.ToUpper: maps the ASCII small letters, the dotless i and the long s, the only characters whose upper case is an ASCII letter, and keeps every other character. Go maps other non-ASCII letters to non-ASCII capitals, which never take part in a match against the ASCII text PRIMARY KEY, so `hasPrimaryKeyInDataType` is the same.
- Go map iteration (`FieldsByDBName`, `ParseIndexes`, `ParseCheckConstraints`, and `Relationships.Relations` at `migrator/migrator.go:67`, `:156`, `:335`, `:350` and `:503`) is a sequence in the order the run happens to yield. For AutoMigrate's column map, the order is the `iterate` parameter.
- Ddl.BuildIndexOptions: the code calls it through `m.DB.Migrator().(BuildIndexOptionsInterface)` (`migrator/migrator.go:152`, `:416`), so a dialect may replace it. The model always uses the generic builder.
- The rendering of `Expr`, `Column`, `Table`, bound values and custom `ClauseBuilder`s is defined outside these files. It is taken as given functions (`render`, `custom`) of the Builder, as are the dialect's `DataTypeOf` and `Quote` and the naming strategy's `ColumnName`.
- `Builder.WriteQuoted`, `AddVar` and `Quote` (`clause/clause.go:19-21`) are not used by the code modelled here.
- `Clause.Priority` (a float) and the `AllowDeferredConstraintsWhenAutoMigrate` option do not influence the code modelled here.
- Integer width: `Limit` fields and index lengths are unbounded integers. Go's `int` overflow does not arise in this code.

## Findings

| source | as written | input that shows it | evidently intended | confidence | as-written member | corrected member |
|---|---|---|---|---|---|---|
| migrator/migrator.go:147-149 | With `CreateIndexAfterCreateTable` set, `CreateIndex` runs inside the index loop, before the `CREATE TABLE` statement is executed at line 180 | A model with one index, with `CreateIndexAfterCreateTable` set: CREATE INDEX is issued on a table that does not exist yet | The table is created first, then one CREATE INDEX per index | not executed | Migrator.IndexBeforeTable | Migrator.TableBeforeIndexes |
