# EntityFramework.Exceptions: error classification and constraint attribution

This project models the core of EntityFramework.Exceptions. The library turns
database-driver failures into portable, typed errors. Two parts are modelled:

- **Per-engine classifiers.** SQLite maps a primary result code plus an extended
  result code, and PostgreSQL maps a SQLSTATE, to an optional `DatabaseError`
  category: `UniqueConstraint`, `CannotInsertNull`, `MaxLength`,
  `NumericOverflow` or `ReferenceConstraint`.
- **The shared pipeline in `ExceptionProcessorInterceptor<T>`.** It classifies
  the failure and passes an unclassified one through. Otherwise it builds the
  typed failure. For a unique or reference failure with a data-access context,
  it attributes the failure to a catalog entry. The catalogs are two lazily
  built, per-instance lists of (name, schema-qualified table, ordered
  properties). Attribution works by a case-insensitive substring match of the
  driver message against the entry names, with a tie-break on the table name.

Files and modules:

- `wrappers.dfy` (`Wrappers`): `Option`, standing for C# `null`.
- `errors.dfy` (`Errors`): the `DatabaseError` category.
- `sqlite.dfy` (`SqliteClassifier`), `postgres.dfy` (`PostgresClassifier`): the
  two classifiers, each with a reference table that its contract is stated against.
- `enumerable.dfy` (`Enumerable`): the LINQ operators the source is written
  with (`SelectMany`, `Select`, `Where`, `Union`, `FirstOrDefault`). Each is a
  function whose contract gives membership. The contracts of `Select` and
  `FirstOrDefault` also give position. The order of `SelectMany`, `Where` and
  `Union` is stated by separate lemmas: `SelectManyAppend` with
  `SelectManyOne`, `WhereAppend`, and `UnionOrder`.
- `schema.dfy` (`Schema`): the model metadata as plain input values, and the
  two catalogs built from it.
- `matching.dfy` (`ConstraintMatching`): case-insensitive `Contains`, the
  candidate filter and the tie-break.
- `interceptor.dfy` (`Interceptor`): the class `ExceptionProcessorInterceptor`.
  Its two cache fields are `Option<seq<…>>`: `None` is the C# `null` before the
  first build. The class `DatabaseException` is the typed failure, with its
  three mutable attribution fields. A processing method returns `None` where the
  source returns, so the raw failure propagates. It returns `Some(e)` where the
  source throws `e`.

Two facts about the catalogs that the code fixes:

- The code drops only primary keys whose name is `null`. An index or constraint
  with an empty name stays in the catalog, and an empty name occurs in every
  message.
- `Union` drops entries that are equal, and it keeps order: mapped unique
  indexes first (in entity-type order), then the primary keys not already
  listed. This order is proved in `Schema.UniqueIndexCatalogOrder`. Which
  entries count as equal is an assumption of the model; see "## Left out".

## Model

| member | source | states |
|---|---|---|
| `SqliteClassifier.GetDatabaseError` | EntityFramework.Exceptions.Sqlite/SqliteExceptionProcessorInterceptor.cs:9-25 | The result is category `e` exactly when the primary code is SQLITE_CONSTRAINT or SQLITE_TOOBIG and the extended code is one the table lists for `e` (TOOBIG to MaxLength, CONSTRAINT_NOTNULL to CannotInsertNull, CONSTRAINT_UNIQUE and CONSTRAINT_PRIMARYKEY to UniqueConstraint, CONSTRAINT_FOREIGNKEY to ReferenceConstraint). Otherwise it is `None`, for any other primary code whatever the extended code, and for any unlisted extended code. |
| `SqliteClassifier.NeverNumericOverflow` | EntityFramework.Exceptions.Sqlite/SqliteExceptionProcessorInterceptor.cs:13-21 | No pair of codes is classified as NumericOverflow. |
| `SqliteClassifier.ExtendedCodesDisjoint` | EntityFramework.Exceptions.Sqlite/SqliteExceptionProcessorInterceptor.cs:13-21 | No extended code is listed for two categories, so the switch is unambiguous. |
| `SqliteClassifier.EveryListedCodeClassifies` | EntityFramework.Exceptions.Sqlite/SqliteExceptionProcessorInterceptor.cs:11-21 | Each listed extended code, under either accepted primary code, yields its category. |
| `PostgresClassifier.GetDatabaseError` | EntityFramework.Exceptions.PostgreSQL/PostgresExceptionProcessorInterceptor.cs:9-20 | The result is category `e` exactly when the SQLSTATE is the one listed for `e` (22001 MaxLength, 22003 NumericOverflow, 23502 CannotInsertNull, 23505 UniqueConstraint, 23503 ReferenceConstraint). Every other SQLSTATE gives `None`. |
| `PostgresClassifier.SqlStateRoundTrip` | EntityFramework.Exceptions.PostgreSQL/PostgresExceptionProcessorInterceptor.cs:11-19 | Classifying the SQLSTATE of any category gives that category back. So all five categories are covered and no two share a code. |
| `Enumerable.SelectMany` | EntityFramework.Exceptions.Common/ExceptionProcessorInterceptor.cs:111-116 | An element is in the flattened result exactly when it is produced from some source element. |
| `Enumerable.SelectManyAppend` | EntityFramework.Exceptions.Common/ExceptionProcessorInterceptor.cs:162-165 | Flattening keeps source order: it distributes over concatenation. |
| `Enumerable.SelectManyOne` | EntityFramework.Exceptions.Common/ExceptionProcessorInterceptor.cs:114-116 | One source element contributes exactly its own sequence, in that sequence's order. With `SelectManyAppend`, this fixes every element and its position in a flattened result. |
| `Enumerable.Select` | EntityFramework.Exceptions.Common/ExceptionProcessorInterceptor.cs:152 | One result per source element, in source order: the result at each position is the projection of the source element there. Used for the property names written at lines 152 and 184 and for the mapped entries at lines 114-116 and 167-169. |
| `Enumerable.Where` | EntityFramework.Exceptions.Common/ExceptionProcessorInterceptor.cs:142-143 | Exactly the elements that satisfy the predicate, and no more elements than the source. |
| `Enumerable.WhereAppend` | EntityFramework.Exceptions.Common/ExceptionProcessorInterceptor.cs:142-143 | Filtering keeps source order: it distributes over concatenation. |
| `Enumerable.FirstOrDefault` | EntityFramework.Exceptions.Common/ExceptionProcessorInterceptor.cs:146-147 | `None` exactly when no element qualifies. Otherwise the result is the element at the least position that qualifies. |
| `Enumerable.FirstOrDefaultOfWhere` | EntityFramework.Exceptions.Common/ExceptionProcessorInterceptor.cs:142-147 | The first element satisfying `q` among those satisfying `p` is the first element of the whole sequence satisfying both. |
| `Enumerable.Union` | EntityFramework.Exceptions.Common/ExceptionProcessorInterceptor.cs:137-139 | The result holds exactly the elements of either input, each once. |
| `Enumerable.DistinctFromAppend` | EntityFramework.Exceptions.Common/ExceptionProcessorInterceptor.cs:137-139 | Enumerating distinct elements of a concatenation gives those of the first part, then those of the second part not already seen. |
| `Enumerable.UnionOrder` | EntityFramework.Exceptions.Common/ExceptionProcessorInterceptor.cs:137-139 | `first.Union(second)` is the distinct elements of `first`, then the distinct elements of `second` that are not in `first`. |
| `Schema.PrimaryKeyDetailsOf` | EntityFramework.Exceptions.Common/ExceptionProcessorInterceptor.cs:118-135 | An entity type contributes at most one primary-key entry. It contributes none exactly when it has no primary key or the key has no name. Otherwise the entry has the key name, the entity type's table and the key's properties. |
| `Schema.UniqueIndexCatalog` | EntityFramework.Exceptions.Common/ExceptionProcessorInterceptor.cs:109-140 | The built unique catalog has no duplicates, and every entry is an index entry. |
| `Schema.UniqueIndexCatalogContents` | EntityFramework.Exceptions.Common/ExceptionProcessorInterceptor.cs:111-139 | The unique catalog holds exactly two kinds of entry, each once. The first is one entry per mapped table index of a unique declared index (its name, its table, the index's properties). The second is one entry per entity type whose primary key exists and has a name (key name, entity table, key properties). An entity type with no primary key, or an unnamed one, contributes nothing. |
| `Schema.UniqueIndexCatalogOrder` | EntityFramework.Exceptions.Common/ExceptionProcessorInterceptor.cs:137-139 | The mapped unique indexes come first, then the primary-key entries not already listed. |
| `Schema.ForeignKeyCatalog` | EntityFramework.Exceptions.Common/ExceptionProcessorInterceptor.cs:160-171 | The built foreign-key catalog has exactly as many entries as there are (declared foreign key, mapped constraint) pairs over all entity types. Every entry is a foreign-key entry. |
| `Schema.ForeignKeyCatalogContents` | EntityFramework.Exceptions.Common/ExceptionProcessorInterceptor.cs:162-170 | An entry is in the foreign-key catalog exactly when it is the entry of some (declared foreign key, mapped constraint) pair: the constraint's name and table, and the key's properties. With the count in `Schema.ForeignKeyCatalog`, each pair gives one entry. |
| `Schema.ForeignKeyCatalogAppend` | EntityFramework.Exceptions.Common/ExceptionProcessorInterceptor.cs:162-170 | No entry is merged or dropped. The catalog of two lists of entity types is the concatenation of their catalogs, in entity-type order. |
| `Schema.ForeignKeyDetailsOfAppend` | EntityFramework.Exceptions.Common/ExceptionProcessorInterceptor.cs:164-169 | The entries of a list of foreign keys are those of its first part followed by those of its second: nothing is merged or reordered. |
| `Schema.ForeignKeyDetailsOfOneKey` | EntityFramework.Exceptions.Common/ExceptionProcessorInterceptor.cs:164-169 | One foreign key gives exactly one entry per mapped constraint, in the constraints' order. Each entry has the constraint's name and table and the key's properties. |
| `ConstraintMatching.ContainsIgnoreCase` | EntityFramework.Exceptions.Common/ExceptionProcessorInterceptor.cs:143 | True exactly when the value occurs at some position of the message, ignoring the case of ASCII letters. An empty value occurs everywhere. |
| `ConstraintMatching.ContainsIgnoresCaseOfMessage` | EntityFramework.Exceptions.Common/ExceptionProcessorInterceptor.cs:143 | Lower-casing the message does not change what it contains. |
| `ConstraintMatching.Candidates` | EntityFramework.Exceptions.Common/ExceptionProcessorInterceptor.cs:142-143 | The candidates are exactly the catalog entries whose name occurs in the message, ignoring case. |
| `ConstraintMatching.CandidatesKeepOrder` | EntityFramework.Exceptions.Common/ExceptionProcessorInterceptor.cs:173-174 | Candidates keep catalog order: the filter distributes over concatenation. |
| `ConstraintMatching.FindMatch` | EntityFramework.Exceptions.Common/ExceptionProcessorInterceptor.cs:142-147 | A match is always a catalog entry whose name occurs in the message. So zero candidates means no match. |
| `ConstraintMatching.SingleCandidateMatches` | EntityFramework.Exceptions.Common/ExceptionProcessorInterceptor.cs:144-145 | If exactly one catalog entry's name occurs in the message, that entry is the only candidate and is the match, whether or not its table name occurs. |
| `ConstraintMatching.TieBreakIsFirstQualifying` | EntityFramework.Exceptions.Common/ExceptionProcessorInterceptor.cs:175-179 | With zero or several candidates, the match is the first catalog entry whose name and table name both occur in the message. With `FirstOrDefault`'s contract, there is no match when no candidate's table name occurs. |
| `ConstraintMatching.FindMatchIgnoresCase` | EntityFramework.Exceptions.Common/ExceptionProcessorInterceptor.cs:142-147 | Matching gives the same result on the message and on its lower-cased form. |
| `Interceptor.ProviderExceptionOf` | EntityFramework.Exceptions.Common/ExceptionProcessorInterceptor.cs:61 | A provider exception is found exactly when the base exception is a driver exception of this instance's engine, and it is that exception. |
| `Interceptor.GetDatabaseError` | EntityFramework.Exceptions.Common/ExceptionProcessorInterceptor.cs:56 | The per-engine override. A SQLite exception gets category `e` exactly when its primary code is accepted and its extended code is listed for `e`; it is never NumericOverflow. A PostgreSQL exception gets category `e` exactly when its SQLSTATE is the one listed for `e`. |
| `Interceptor.DatabaseException.Create` | EntityFramework.Exceptions.Common/ExceptionProcessorInterceptor.cs:67 | The typed failure keeps the category, the original exception and the entries, and starts with all three attribution fields unset. |
| `Interceptor.DatabaseException.Attribute` | EntityFramework.Exceptions.Common/ExceptionProcessorInterceptor.cs:149-154 | On a match, the constraint name, the property names (in the entry's order) and the table name are set from the entry. On no match, the object is unchanged. |
| `Interceptor.ExceptionProcessorInterceptor.Classify` | EntityFramework.Exceptions.Common/ExceptionProcessorInterceptor.cs:61-65 | A failure whose base exception is not a driver exception has no category. A category is found only for a driver exception of this instance's engine. For such an exception the result is exactly that engine's classification, so a listed code is always classified. |
| `Interceptor.ExceptionProcessorInterceptor.constructor` | EntityFramework.Exceptions.Common/ExceptionProcessorInterceptor.cs:16-17 | Both catalog caches start unset. |
| `Interceptor.ExceptionProcessorInterceptor.SetUniqueConstraintDetails` | EntityFramework.Exceptions.Common/ExceptionProcessorInterceptor.cs:106-155 | The unique catalog is built from the given model only while the cache is unset. A stored list is reused unchanged, whatever model is passed. The failure then carries the entry the message matches, or its fields are untouched. The invariant that a stored list is the catalog of some model is kept. |
| `Interceptor.ExceptionProcessorInterceptor.SetReferenceConstraintDetails` | EntityFramework.Exceptions.Common/ExceptionProcessorInterceptor.cs:157-187 | The same for the foreign-key catalog and a reference failure. |
| `Interceptor.ExceptionProcessorInterceptor.AttributeIfConstraint` | EntityFramework.Exceptions.Common/ExceptionProcessorInterceptor.cs:69-77 | Attribution is attempted only for a unique or reference failure with a context, and touches only that kind's cache. Any other category, or no context, leaves the failure unattributed and both caches as they were. |
| `Interceptor.ExceptionProcessorInterceptor.ProcessDbUpdateException` | EntityFramework.Exceptions.Common/ExceptionProcessorInterceptor.cs:59-80 | It passes through (caches untouched) exactly when the exception is not a DbUpdateException, or its base exception is not this engine's, or the classifier gives no category. Otherwise it throws a new typed failure. That failure has the classified category, the original exception and the save's entries, attributed as above. |
| `Interceptor.ExceptionProcessorInterceptor.ProcessDbException` | EntityFramework.Exceptions.Common/ExceptionProcessorInterceptor.cs:83-104 | The same for a failed command, on a DbException, with no entries. |

## Left out

- The interceptor hooks `SaveChangesFailed`, `SaveChangesFailedAsync`, `CommandFailed` and `CommandFailedAsync` (ExceptionProcessorInterceptor.cs:29-54). They only forward the event and wrap the call in a completed task. The model starts at the two processing methods they call.
- The metadata provider (`GetEntityTypes`, `GetDeclaredIndexes`, `GetMappedTableIndexes`, `GetDeclaredForeignKeys`, `GetMappedConstraints`, `FindPrimaryKey`, `GetName`, `GetSchemaQualifiedTableName`) is foreign library code. Its results are input values (`Schema.Model`), and a property is represented by its name.
- Runtime type tests (`as DbUpdateException`, `as DbException`, `GetBaseException() is not T`) are modelled as the variants of `RaisedException` and `BaseException` and the engine an instance is built for.
- The code of `ExceptionFactory.Create` and of the five exception classes lies outside the modelled files. The constructor `DatabaseException.Create` stands in for them, with the category as a field instead of five classes.
- `throw` is modelled as returning `Some(e)`, and the early `return` as returning `None`.
- The code of `IndexDetails` and `ForeignKeyDetails` lies outside the modelled files. The datatype `Schema.ConstraintDetails` stands in for both, and the model ASSUMES that `Union` compares entries by value (name, table and property names).
- Enumerable.Union: under .NET equality, `Union` may keep entries that the model merges. The entries hold `index.Properties` / `primaryKey.Properties`, which are lists of property objects (ExceptionProcessorInterceptor.cs:116, 134). A record compares that list by reference, and a class compares the whole entry by reference. Example: a unique index mapped as `N` on table `T` over `[Id]`, and a primary key also named `N` over `[Id]` on `T`. The model gives one catalog entry. .NET gives two, so `FindMatch` takes the tie-break branch and a message that names `N` but not `T` gets no match.
- A `null` schema-qualified table name, which would make `Contains` throw during the tie-break, is not modelled: table names are always strings.
- ConstraintMatching.ContainsIgnoreCase: folds only ASCII letters, which is weaker than .NET's `OrdinalIgnoreCase` over all of Unicode.
- Thread safety of the lazy catalog build is a concurrency concern outside this sequential model.
- EntityFramework.Exceptions.Tests/SqliteTests.cs is test wiring that needs a live database, and it holds no logic.
