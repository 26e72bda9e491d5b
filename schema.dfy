/** The model metadata the catalogs are built from, supplied as plain values
    (what the metadata provider's `GetEntityTypes`, `GetDeclaredIndexes`,
    `GetMappedTableIndexes`, `GetDeclaredForeignKeys`, `GetMappedConstraints`,
    `FindPrimaryKey`, `GetName` and `GetSchemaQualifiedTableName` would return),
    and the two catalogs built from it. */
module Schema {
  import opened Wrappers
  import opened Enumerable

  datatype Property = Property(name: string)

  /** An index or constraint as mapped onto a physical table: its name and the
      schema-qualified name of the table it lives on. */
  datatype TableObject = TableObject(name: string, tableSchemaQualifiedName: string)

  /** A declared index: uniqueness, its properties in order, its mapped table indexes. */
  datatype Index = Index(isUnique: bool, properties: seq<Property>, mappedTableIndexes: seq<TableObject>)

  /** A declared foreign key: its properties in order, its mapped constraints. */
  datatype ForeignKey = ForeignKey(properties: seq<Property>, mappedConstraints: seq<TableObject>)

  /** A primary key; `name` is `None` when the key has no name. */
  datatype Key = Key(name: Option<string>, properties: seq<Property>)

  datatype EntityType = EntityType(
    declaredIndexes: seq<Index>,
    declaredForeignKeys: seq<ForeignKey>,
    primaryKey: Option<Key>,
    schemaQualifiedTableName: string)

  datatype Model = Model(entityTypes: seq<EntityType>)

  /** A catalog entry: a unique index or primary key (IndexDetails) or a
      foreign-key constraint (ForeignKeyDetails). */
  datatype ConstraintDetails =
    | IndexDetails(name: string, schemaQualifiedTableName: string, properties: seq<Property>)
    | ForeignKeyDetails(name: string, schemaQualifiedTableName: string, properties: seq<Property>)

  // ---- The unique-index catalog ----

  /** Every entity type's own indexes that are unique, entity type by entity type. */
  function UniqueIndexes(model: Model): seq<Index> {
    SelectMany(model.entityTypes, (t: EntityType) => Where(t.declaredIndexes, (i: Index) => i.isUnique))
  }

  /** One entry per (unique index, mapped table index) pair. */
  function MappedIndexDetails(indexes: seq<Index>): seq<ConstraintDetails> {
    SelectMany(indexes, (i: Index) =>
      Select(i.mappedTableIndexes, (ti: TableObject) =>
        IndexDetails(ti.name, ti.tableSchemaQualifiedName, i.properties)))
  }

  /** The entry an entity type's primary key contributes: none when it has no
      primary key or the key has no name, otherwise one entry with the key's
      name, the entity type's table and the key's properties. */
  function PrimaryKeyDetailsOf(t: EntityType): (r: seq<ConstraintDetails>)
    ensures |r| <= 1
    ensures r == [] <==> t.primaryKey.None? || t.primaryKey.value.name.None?
    ensures r != [] ==> r[0] == IndexDetails(t.primaryKey.value.name.value, t.schemaQualifiedTableName,
                                             t.primaryKey.value.properties)
  {
    match t.primaryKey
    case None => []
    case Some(key) =>
      match key.name
      case None => []
      case Some(keyName) => [IndexDetails(keyName, t.schemaQualifiedTableName, key.properties)]
  }

  function PrimaryKeyDetails(model: Model): seq<ConstraintDetails> {
    SelectMany(model.entityTypes, PrimaryKeyDetailsOf)
  }

  /** The unique-index catalog: the mapped unique indexes, then the named
      primary keys, with duplicates dropped. */
  function UniqueIndexCatalog(model: Model): (r: seq<ConstraintDetails>)
    ensures NoDuplicates(r)
    ensures forall d :: d in r ==> d.IndexDetails?
  {
    var mapped := MappedIndexDetails(UniqueIndexes(model));
    assert forall d :: d in mapped ==> d.IndexDetails? by {
      forall d | d in mapped ensures d.IndexDetails? {
        var i :| i in UniqueIndexes(model) && d in Select(i.mappedTableIndexes, (ti: TableObject) =>
          IndexDetails(ti.name, ti.tableSchemaQualifiedName, i.properties));
      }
    }
    assert forall d :: d in PrimaryKeyDetails(model) ==> d.IndexDetails? by {
      forall d | d in PrimaryKeyDetails(model) ensures d.IndexDetails? {
        var t :| t in model.entityTypes && d in PrimaryKeyDetailsOf(t);
      }
    }
    Union(mapped, PrimaryKeyDetails(model))
  }

  /** `d` is the entry of a mapped table index of a unique declared index. */
  ghost predicate IsMappedUniqueIndex(model: Model, d: ConstraintDetails) {
    exists t, i, ti :: t in model.entityTypes && i in t.declaredIndexes && i.isUnique &&
      ti in i.mappedTableIndexes && d == IndexDetails(ti.name, ti.tableSchemaQualifiedName, i.properties)
  }

  /** `d` is the entry of an entity type's named primary key. */
  ghost predicate IsNamedPrimaryKey(model: Model, d: ConstraintDetails) {
    exists t :: t in model.entityTypes && t.primaryKey.Some? && t.primaryKey.value.name.Some? &&
      d == IndexDetails(t.primaryKey.value.name.value, t.schemaQualifiedTableName, t.primaryKey.value.properties)
  }

  /** The unique-index catalog holds exactly the mapped unique indexes and the
      named primary keys, each once. */
  lemma UniqueIndexCatalogContents(model: Model)
    ensures forall d :: d in UniqueIndexCatalog(model) <==> IsMappedUniqueIndex(model, d) || IsNamedPrimaryKey(model, d)
    ensures NoDuplicates(UniqueIndexCatalog(model))
  {
    var mapped := MappedIndexDetails(UniqueIndexes(model));
    forall d ensures d in mapped <==> IsMappedUniqueIndex(model, d) {
      if d in mapped {
        var i :| i in UniqueIndexes(model) && d in Select(i.mappedTableIndexes, (ti: TableObject) =>
          IndexDetails(ti.name, ti.tableSchemaQualifiedName, i.properties));
        var t :| t in model.entityTypes && i in Where(t.declaredIndexes, (i: Index) => i.isUnique);
        var ti :| ti in i.mappedTableIndexes && d == IndexDetails(ti.name, ti.tableSchemaQualifiedName, i.properties);
      }
      if IsMappedUniqueIndex(model, d) {
        var t, i, ti :| t in model.entityTypes && i in t.declaredIndexes && i.isUnique &&
          ti in i.mappedTableIndexes && d == IndexDetails(ti.name, ti.tableSchemaQualifiedName, i.properties);
        assert i in Where(t.declaredIndexes, (i: Index) => i.isUnique);
        assert i in UniqueIndexes(model);
        assert d in Select(i.mappedTableIndexes, (ti: TableObject) =>
          IndexDetails(ti.name, ti.tableSchemaQualifiedName, i.properties));
      }
    }
    forall d ensures d in PrimaryKeyDetails(model) <==> IsNamedPrimaryKey(model, d) {
      if IsNamedPrimaryKey(model, d) {
        var t :| t in model.entityTypes && t.primaryKey.Some? && t.primaryKey.value.name.Some? &&
          d == IndexDetails(t.primaryKey.value.name.value, t.schemaQualifiedTableName, t.primaryKey.value.properties);
        assert d in PrimaryKeyDetailsOf(t);
      }
    }
  }

  /** The mapped unique indexes come first, in entity-type order; the named
      primary keys follow, minus those equal to an entry already listed. */
  lemma UniqueIndexCatalogOrder(model: Model)
    ensures var mapped := MappedIndexDetails(UniqueIndexes(model));
      UniqueIndexCatalog(model) == DistinctFrom(mapped, {}) + DistinctFrom(PrimaryKeyDetails(model), Elements(mapped))
  {
    UnionOrder(MappedIndexDetails(UniqueIndexes(model)), PrimaryKeyDetails(model));
  }

  // ---- The foreign-key catalog ----

  function DeclaredForeignKeysOf(t: EntityType): seq<ForeignKey> {
    t.declaredForeignKeys
  }

  /** The entries of one foreign key: one per mapped constraint. */
  function MappedConstraintDetails(fk: ForeignKey): seq<ConstraintDetails> {
    Select(fk.mappedConstraints, (c: TableObject) =>
      ForeignKeyDetails(c.name, c.tableSchemaQualifiedName, fk.properties))
  }

  function ForeignKeyDetailsOf(keys: seq<ForeignKey>): seq<ConstraintDetails> {
    SelectMany(keys, MappedConstraintDetails)
  }

  /** The number of (foreign key, mapped constraint) pairs of a list of keys. */
  function ConstraintCount(keys: seq<ForeignKey>): nat {
    if keys == [] then 0 else |keys[0].mappedConstraints| + ConstraintCount(keys[1..])
  }

  /** The number of (declared foreign key, mapped constraint) pairs over all entity types. */
  function PairCount(types: seq<EntityType>): nat {
    if types == [] then 0 else ConstraintCount(types[0].declaredForeignKeys) + PairCount(types[1..])
  }

  /** The foreign-key catalog: one entry per (declared foreign key, mapped
      constraint) pair, entity type by entity type, nothing merged. */
  function ForeignKeyCatalog(model: Model): (r: seq<ConstraintDetails>)
    ensures |r| == PairCount(model.entityTypes)
    ensures forall d :: d in r ==> d.ForeignKeyDetails?
  {
    var keys := SelectMany(model.entityTypes, DeclaredForeignKeysOf);
    ForeignKeyDetailsOfCount(keys);
    ConstraintCountOfDeclared(model.entityTypes);
    assert forall d :: d in ForeignKeyDetailsOf(keys) ==> d.ForeignKeyDetails? by {
      forall d | d in ForeignKeyDetailsOf(keys) ensures d.ForeignKeyDetails? {
        var fk :| fk in keys && d in MappedConstraintDetails(fk);
      }
    }
    ForeignKeyDetailsOf(keys)
  }

  lemma {:induction false} ForeignKeyDetailsOfCount(keys: seq<ForeignKey>)
    ensures |ForeignKeyDetailsOf(keys)| == ConstraintCount(keys)
  {
    if keys != [] {
      ForeignKeyDetailsOfCount(keys[1..]);
    }
  }

  lemma {:induction false} ConstraintCountAppend(a: seq<ForeignKey>, b: seq<ForeignKey>)
    ensures ConstraintCount(a + b) == ConstraintCount(a) + ConstraintCount(b)
  {
    if a == [] {
      assert a + b == b;
    } else {
      assert (a + b)[1..] == a[1..] + b;
      ConstraintCountAppend(a[1..], b);
    }
  }

  lemma {:induction false} ConstraintCountOfDeclared(types: seq<EntityType>)
    ensures ConstraintCount(SelectMany(types, DeclaredForeignKeysOf)) == PairCount(types)
  {
    if types != [] {
      ConstraintCountOfDeclared(types[1..]);
      ConstraintCountAppend(types[0].declaredForeignKeys, SelectMany(types[1..], DeclaredForeignKeysOf));
    }
  }

  /** The entries of a list of keys are those of the first part followed by
      those of the second. */
  lemma ForeignKeyDetailsOfAppend(a: seq<ForeignKey>, b: seq<ForeignKey>)
    ensures ForeignKeyDetailsOf(a + b) == ForeignKeyDetailsOf(a) + ForeignKeyDetailsOf(b)
  {
    SelectManyAppend(a, b, MappedConstraintDetails);
  }

  /** A single foreign key contributes one entry per mapped constraint, in the
      constraints' order: the constraint's name and table, the key's properties. */
  lemma ForeignKeyDetailsOfOneKey(fk: ForeignKey)
    ensures |ForeignKeyDetailsOf([fk])| == |fk.mappedConstraints|
    ensures forall j :: 0 <= j < |fk.mappedConstraints| ==>
      ForeignKeyDetailsOf([fk])[j] == ForeignKeyDetails(fk.mappedConstraints[j].name,
        fk.mappedConstraints[j].tableSchemaQualifiedName, fk.properties)
  {
    assert [fk][1..] == [];
    assert SelectMany([fk][1..], MappedConstraintDetails) == [];
    assert ForeignKeyDetailsOf([fk]) == MappedConstraintDetails(fk) + [];
    assert MappedConstraintDetails(fk) + [] == MappedConstraintDetails(fk);
  }

  /** `d` is the entry of a mapped constraint of a declared foreign key. */
  ghost predicate IsMappedForeignKey(model: Model, d: ConstraintDetails) {
    exists t, fk, c :: t in model.entityTypes && fk in t.declaredForeignKeys && c in fk.mappedConstraints &&
      d == ForeignKeyDetails(c.name, c.tableSchemaQualifiedName, fk.properties)
  }

  /** The foreign-key catalog holds exactly the entries of the mapped
      constraints of the declared foreign keys. */
  lemma ForeignKeyCatalogContents(model: Model)
    ensures forall d :: d in ForeignKeyCatalog(model) <==> IsMappedForeignKey(model, d)
  {
    var keys := SelectMany(model.entityTypes, DeclaredForeignKeysOf);
    forall d | d in ForeignKeyCatalog(model) ensures IsMappedForeignKey(model, d) {
      var fk :| fk in keys && d in MappedConstraintDetails(fk);
      var t :| t in model.entityTypes && fk in DeclaredForeignKeysOf(t);
      var c :| c in fk.mappedConstraints && d == ForeignKeyDetails(c.name, c.tableSchemaQualifiedName, fk.properties);
    }
    forall t, fk, c | t in model.entityTypes && fk in t.declaredForeignKeys && c in fk.mappedConstraints
      ensures ForeignKeyDetails(c.name, c.tableSchemaQualifiedName, fk.properties) in ForeignKeyCatalog(model)
    {
      assert fk in DeclaredForeignKeysOf(t);
      assert fk in keys;
      assert ForeignKeyDetails(c.name, c.tableSchemaQualifiedName, fk.properties) in MappedConstraintDetails(fk);
    }
  }

  /** No entry is merged or dropped: the catalog of two lists of entity types
      is the catalog of the first followed by that of the second. */
  lemma ForeignKeyCatalogAppend(a: seq<EntityType>, b: seq<EntityType>)
    ensures ForeignKeyCatalog(Model(a + b)) == ForeignKeyCatalog(Model(a)) + ForeignKeyCatalog(Model(b))
  {
    SelectManyAppend(a, b, DeclaredForeignKeysOf);
    ForeignKeyDetailsOfAppend(SelectMany(a, DeclaredForeignKeysOf), SelectMany(b, DeclaredForeignKeysOf));
  }
}
