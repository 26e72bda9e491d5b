/** The shared processing pipeline: classify a driver failure, pass an
    unclassified one through, otherwise build the typed failure, attribute
    unique and reference failures to a catalog entry, and raise it. */
module Interceptor {
  import opened Wrappers
  import opened Errors
  import opened Enumerable
  import opened Schema
  import opened ConstraintMatching
  import SqliteClassifier
  import PostgresClassifier

  /** The engine an interceptor instance is written for; it fixes the provider
      exception type the instance recognises. */
  datatype Engine = Sqlite | Postgres

  /** A driver exception, with the codes each engine exposes and its message. */
  datatype ProviderException =
    | SqliteException(sqliteErrorCode: int, sqliteExtendedErrorCode: int, message: string)
    | PostgresException(sqlState: string, message: string)

  /** The innermost exception of a failure: a driver exception or anything else. */
  datatype BaseException = ProviderBase(provider: ProviderException) | OtherBase(message: string)

  /** A tracked entity entry affected by a failed save, by identity. */
  datatype EntityEntry = EntityEntry(id: nat)

  /** The exception a failure event carries. */
  datatype RaisedException =
    | DbUpdateException(entries: seq<EntityEntry>, baseException: BaseException)
    | DbException(baseException: BaseException)
    | OtherException(baseException: BaseException)

  /** The event a failed save or a failed command delivers: the data-access
      context's model (`None` when there is no context) and the exception. */
  datatype ErrorEventData = ErrorEventData(context: Option<Model>, exception: RaisedException)

  /** The engine's own exception type test on the base exception. */
  function ProviderExceptionOf(engine: Engine, exception: RaisedException): (r: Option<ProviderException>)
    ensures r.Some? <==>
      (exception.baseException.ProviderBase? &&
       (engine.Sqlite? <==> exception.baseException.provider.SqliteException?))
    ensures r.Some? ==> r.value == exception.baseException.provider
  {
    match exception.baseException
    case OtherBase(_) => None
    case ProviderBase(p) =>
      if engine.Sqlite? == p.SqliteException? then Some(p) else None
  }

  /** The engine's classifier applied to its own provider exception: a
      SQLite failure is classified by its extended-code table, a PostgreSQL
      failure by its SQLSTATE table. */
  function GetDatabaseError(p: ProviderException): (r: Option<DatabaseError>)
    ensures p.SqliteException? ==> forall e :: r == Some(e) <==>
      SqliteClassifier.IsAcceptedPrimaryCode(p.sqliteErrorCode) &&
      p.sqliteExtendedErrorCode in SqliteClassifier.ExtendedCodesOf(e)
    ensures p.SqliteException? ==> r != Some(NumericOverflow)
    ensures p.PostgresException? ==> forall e :: r == Some(e) <==> p.sqlState == PostgresClassifier.SqlStateOf(e)
  {
    match p
    case SqliteException(code, extendedCode, _) => SqliteClassifier.GetDatabaseError(code, extendedCode)
    case PostgresException(sqlState, _) => PostgresClassifier.GetDatabaseError(sqlState)
  }

  /** The typed failure the factory builds for a category. Unique and
      reference failures carry three attribution fields, unset at first. */
  class DatabaseException {
    const error: DatabaseError
    const innerException: RaisedException
    const entries: seq<EntityEntry>
    var constraintName: Option<string>
    var constraintProperties: Option<seq<string>>
    var schemaQualifiedTableName: Option<string>

    constructor Create(error: DatabaseError, innerException: RaisedException, entries: seq<EntityEntry>)
      ensures this.error == error && this.innerException == innerException && this.entries == entries
      ensures HasAttribution(None)
    {
      this.error := error;
      this.innerException := innerException;
      this.entries := entries;
      constraintName := None;
      constraintProperties := None;
      schemaQualifiedTableName := None;
    }

    /** The attribution fields hold `entry`, or are all unset for `None`. */
    ghost predicate HasAttribution(entry: Option<ConstraintDetails>)
      reads this
    {
      match entry
      case None =>
        constraintName.None? && constraintProperties.None? && schemaQualifiedTableName.None?
      case Some(d) =>
        && constraintName == Some(d.name)
        && constraintProperties == Some(Select(d.properties, (p: Property) => p.name))
        && schemaQualifiedTableName == Some(d.schemaQualifiedTableName)
    }

    /** Writes the matched entry into the attribution fields; on no match the
        fields keep the values they had. */
    method Attribute(entry: Option<ConstraintDetails>)
      modifies this
      ensures entry.Some? ==> HasAttribution(entry)
      ensures entry.None? ==> unchanged(this)
    {
      if entry.Some? {
        var d := entry.value;
        constraintName := Some(d.name);
        constraintProperties := Some(Select(d.properties, (p: Property) => p.name));
        schemaQualifiedTableName := Some(d.schemaQualifiedTableName);
      }
    }
  }

  /** The catalog a cache field yields: the stored list when there is one,
      otherwise the freshly built one. */
  function CachedOr(cache: Option<seq<ConstraintDetails>>, built: seq<ConstraintDetails>): seq<ConstraintDetails> {
    if cache.Some? then cache.value else built
  }

  class ExceptionProcessorInterceptor {
    const engine: Engine
    var uniqueIndexDetailsList: Option<seq<ConstraintDetails>>
    var foreignKeyDetailsList: Option<seq<ConstraintDetails>>

    /** A stored list is the catalog of some model: the unique catalog of
        the model it was first built from, resp. its foreign-key catalog. */
    ghost predicate Valid()
      reads this
    {
      && (uniqueIndexDetailsList.Some? ==> exists m :: uniqueIndexDetailsList.value == UniqueIndexCatalog(m))
      && (foreignKeyDetailsList.Some? ==> exists m :: foreignKeyDetailsList.value == ForeignKeyCatalog(m))
    }

    constructor(engine: Engine)
      ensures Valid()
      ensures this.engine == engine
      ensures uniqueIndexDetailsList.None? && foreignKeyDetailsList.None?
    {
      this.engine := engine;
      uniqueIndexDetailsList := None;
      foreignKeyDetailsList := None;
    }

    /** The category of a failure: `None` unless its base exception is this
        engine's provider exception and the classifier knows the code. */
    function Classify(exception: RaisedException): (r: Option<DatabaseError>)
      ensures exception.baseException.OtherBase? ==> r.None?
      ensures r.Some? ==> (engine.Sqlite? <==> exception.baseException.provider.SqliteException?)
      ensures r.Some? ==> r == GetDatabaseError(exception.baseException.provider)
      ensures (exception.baseException.ProviderBase? &&
               (engine.Sqlite? <==> exception.baseException.provider.SqliteException?)) ==>
        r == GetDatabaseError(exception.baseException.provider)
    {
      match ProviderExceptionOf(engine, exception)
      case None => None
      case Some(p) => GetDatabaseError(p)
    }

    /** Attributes a unique-constraint failure: builds the unique catalog if it
        is not stored yet, then writes the entry the message matches. */
    method SetUniqueConstraintDetails(model: Model, exception: DatabaseException, message: string)
      requires Valid()
      requires exception.error == UniqueConstraint
      modifies this`uniqueIndexDetailsList, exception
      ensures Valid()
      ensures uniqueIndexDetailsList == Some(CachedOr(old(uniqueIndexDetailsList), UniqueIndexCatalog(model)))
      ensures var entry := FindMatch(uniqueIndexDetailsList.value, message);
        if entry.Some? then exception.HasAttribution(entry) else unchanged(exception)
    {
      if uniqueIndexDetailsList.None? {
        uniqueIndexDetailsList := Some(UniqueIndexCatalog(model));
      }
      var entry := FindMatch(uniqueIndexDetailsList.value, message);
      exception.Attribute(entry);
    }

    /** Attributes a reference-constraint failure: builds the foreign-key
        catalog if it is not stored yet, then writes the entry the message matches. */
    method SetReferenceConstraintDetails(model: Model, exception: DatabaseException, message: string)
      requires Valid()
      requires exception.error == ReferenceConstraint
      modifies this`foreignKeyDetailsList, exception
      ensures Valid()
      ensures foreignKeyDetailsList == Some(CachedOr(old(foreignKeyDetailsList), ForeignKeyCatalog(model)))
      ensures var entry := FindMatch(foreignKeyDetailsList.value, message);
        if entry.Some? then exception.HasAttribution(entry) else unchanged(exception)
    {
      if foreignKeyDetailsList.None? {
        foreignKeyDetailsList := Some(ForeignKeyCatalog(model));
      }
      var entry := FindMatch(foreignKeyDetailsList.value, message);
      exception.Attribute(entry);
    }

    /** The switch both processing methods end with: attribution for unique and
        reference failures when there is a context, nothing for the rest. */
    method AttributeIfConstraint(context: Option<Model>, exception: DatabaseException, message: string)
      requires Valid()
      requires exception.HasAttribution(None)
      modifies this`uniqueIndexDetailsList, this`foreignKeyDetailsList, exception
      ensures Valid()
      ensures AttributedAsProcessed(context, exception, message,
        old(uniqueIndexDetailsList), old(foreignKeyDetailsList))
    {
      if exception.error == UniqueConstraint && context.Some? {
        SetUniqueConstraintDetails(context.value, exception, message);
      } else if exception.error == ReferenceConstraint && context.Some? {
        SetReferenceConstraintDetails(context.value, exception, message);
      }
    }

    /** The state after attribution, given the caches before it: a unique or
        reference failure with a context builds (or reuses) its own catalog and
        carries the entry the message matches, or nothing on no match; any
        other failure, or one without a context, carries nothing and leaves
        both caches as they were. */
    ghost predicate AttributedAsProcessed(context: Option<Model>, exception: DatabaseException, message: string,
      uniqueBefore: Option<seq<ConstraintDetails>>, foreignKeyBefore: Option<seq<ConstraintDetails>>)
      reads this, exception
    {
      if exception.error.UniqueConstraint? && context.Some? then
        && uniqueIndexDetailsList == Some(CachedOr(uniqueBefore, UniqueIndexCatalog(context.value)))
        && foreignKeyDetailsList == foreignKeyBefore
        && exception.HasAttribution(FindMatch(uniqueIndexDetailsList.value, message))
      else if exception.error.ReferenceConstraint? && context.Some? then
        && foreignKeyDetailsList == Some(CachedOr(foreignKeyBefore, ForeignKeyCatalog(context.value)))
        && uniqueIndexDetailsList == uniqueBefore
        && exception.HasAttribution(FindMatch(foreignKeyDetailsList.value, message))
      else
        && uniqueIndexDetailsList == uniqueBefore
        && foreignKeyDetailsList == foreignKeyBefore
        && exception.HasAttribution(None)
    }

    /** A failed save: `None` (return, the raw failure propagates) unless the
        event carries a DbUpdateException whose base exception this engine
        classifies; otherwise the typed failure to throw, with the save's
        entries and its attribution. */
    method ProcessDbUpdateException(eventData: ErrorEventData) returns (thrown: Option<DatabaseException>)
      requires Valid()
      modifies this`uniqueIndexDetailsList, this`foreignKeyDetailsList
      ensures Valid()
      ensures thrown.None? <==>
        !eventData.exception.DbUpdateException? || Classify(eventData.exception).None?
      ensures thrown.None? ==>
        uniqueIndexDetailsList == old(uniqueIndexDetailsList) && foreignKeyDetailsList == old(foreignKeyDetailsList)
      ensures thrown.Some? ==>
        && fresh(thrown.value)
        && thrown.value.error == Classify(eventData.exception).value
        && thrown.value.innerException == eventData.exception
        && thrown.value.entries == eventData.exception.entries
        && AttributedAsProcessed(eventData.context, thrown.value,
             eventData.exception.baseException.provider.message,
             old(uniqueIndexDetailsList), old(foreignKeyDetailsList))
    {
      if !eventData.exception.DbUpdateException? {
        return None;
      }
      var provider := ProviderExceptionOf(engine, eventData.exception);
      if provider.None? {
        return None;
      }
      var providerException := provider.value;
      var error := GetDatabaseError(providerException);
      if error.None? {
        return None;
      }
      var exception := new DatabaseException.Create(error.value, eventData.exception, eventData.exception.entries);
      AttributeIfConstraint(eventData.context, exception, providerException.message);
      return Some(exception);
    }

    /** A failed command: as for a failed save, but on a DbException and with
        no entity entries. */
    method ProcessDbException(eventData: ErrorEventData) returns (thrown: Option<DatabaseException>)
      requires Valid()
      modifies this`uniqueIndexDetailsList, this`foreignKeyDetailsList
      ensures Valid()
      ensures thrown.None? <==>
        !eventData.exception.DbException? || Classify(eventData.exception).None?
      ensures thrown.None? ==>
        uniqueIndexDetailsList == old(uniqueIndexDetailsList) && foreignKeyDetailsList == old(foreignKeyDetailsList)
      ensures thrown.Some? ==>
        && fresh(thrown.value)
        && thrown.value.error == Classify(eventData.exception).value
        && thrown.value.innerException == eventData.exception
        && thrown.value.entries == []
        && AttributedAsProcessed(eventData.context, thrown.value,
             eventData.exception.baseException.provider.message,
             old(uniqueIndexDetailsList), old(foreignKeyDetailsList))
    {
      if !eventData.exception.DbException? {
        return None;
      }
      var provider := ProviderExceptionOf(engine, eventData.exception);
      if provider.None? {
        return None;
      }
      var providerException := provider.value;
      var error := GetDatabaseError(providerException);
      if error.None? {
        return None;
      }
      var exception := new DatabaseException.Create(error.value, eventData.exception, []);
      AttributeIfConstraint(eventData.context, exception, providerException.message);
      return Some(exception);
    }
  }
}
