/** The SQLite classifier: a primary result code plus an extended result code
    (SQLite "Result and Error Codes") to a `DatabaseError` category. */
module SqliteClassifier {
  import opened Wrappers
  import opened Errors

  // Primary result codes.
  const SQLITE_TOOBIG: int := 18
  const SQLITE_CONSTRAINT: int := 19

  // Extended result codes of SQLITE_CONSTRAINT: the primary code in the low
  // byte, the refinement in the byte above it.
  const SQLITE_CONSTRAINT_FOREIGNKEY: int := SQLITE_CONSTRAINT + 3 * 256
  const SQLITE_CONSTRAINT_NOTNULL: int := SQLITE_CONSTRAINT + 5 * 256
  const SQLITE_CONSTRAINT_PRIMARYKEY: int := SQLITE_CONSTRAINT + 6 * 256
  const SQLITE_CONSTRAINT_UNIQUE: int := SQLITE_CONSTRAINT + 8 * 256

  /** Primary codes under which the extended code is looked at at all. */
  predicate IsAcceptedPrimaryCode(sqliteErrorCode: int) {
    sqliteErrorCode == SQLITE_CONSTRAINT || sqliteErrorCode == SQLITE_TOOBIG
  }

  /** Reference table: the extended codes that stand for each category. */
  function ExtendedCodesOf(e: DatabaseError): set<int> {
    match e
    case MaxLength => {SQLITE_TOOBIG}
    case CannotInsertNull => {SQLITE_CONSTRAINT_NOTNULL}
    case UniqueConstraint => {SQLITE_CONSTRAINT_UNIQUE, SQLITE_CONSTRAINT_PRIMARYKEY}
    case ReferenceConstraint => {SQLITE_CONSTRAINT_FOREIGNKEY}
    case NumericOverflow => {}
  }

  /** The classifier. The result is a category exactly when the primary code is
      accepted and the extended code is listed for that category in the table;
      otherwise it is `None`, whatever the extended code. */
  function GetDatabaseError(sqliteErrorCode: int, sqliteExtendedErrorCode: int): (r: Option<DatabaseError>)
    ensures forall e :: r == Some(e) <==>
      IsAcceptedPrimaryCode(sqliteErrorCode) && sqliteExtendedErrorCode in ExtendedCodesOf(e)
    ensures r.None? <==>
      !IsAcceptedPrimaryCode(sqliteErrorCode) ||
      forall e :: sqliteExtendedErrorCode !in ExtendedCodesOf(e)
  {
    if IsAcceptedPrimaryCode(sqliteErrorCode) then
      if sqliteExtendedErrorCode == SQLITE_TOOBIG then Some(MaxLength)
      else if sqliteExtendedErrorCode == SQLITE_CONSTRAINT_NOTNULL then Some(CannotInsertNull)
      else if sqliteExtendedErrorCode == SQLITE_CONSTRAINT_UNIQUE then Some(UniqueConstraint)
      else if sqliteExtendedErrorCode == SQLITE_CONSTRAINT_PRIMARYKEY then Some(UniqueConstraint)
      else if sqliteExtendedErrorCode == SQLITE_CONSTRAINT_FOREIGNKEY then Some(ReferenceConstraint)
      else None
    else
      None
  }

  /** SQLite never reports a numeric overflow through this classifier. */
  lemma NeverNumericOverflow(sqliteErrorCode: int, sqliteExtendedErrorCode: int)
    ensures GetDatabaseError(sqliteErrorCode, sqliteExtendedErrorCode) != Some(NumericOverflow)
  {
    assert ExtendedCodesOf(NumericOverflow) == {};
  }

  /** The table's code sets are pairwise disjoint, so the classification of an
      accepted failure is decided by the extended code alone and each listed
      extended code has exactly one category. */
  lemma ExtendedCodesDisjoint(e1: DatabaseError, e2: DatabaseError, code: int)
    requires code in ExtendedCodesOf(e1) && code in ExtendedCodesOf(e2)
    ensures e1 == e2
  {
  }

  /** Every category except NumericOverflow is reachable, under either accepted primary code. */
  lemma EveryListedCodeClassifies(e: DatabaseError, code: int, sqliteErrorCode: int)
    requires code in ExtendedCodesOf(e)
    requires IsAcceptedPrimaryCode(sqliteErrorCode)
    ensures GetDatabaseError(sqliteErrorCode, code) == Some(e)
    ensures e != NumericOverflow
  {
  }
}
