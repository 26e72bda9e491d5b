/** The PostgreSQL classifier: a SQLSTATE (Appendix A "PostgreSQL Error
    Codes" of the PostgreSQL manual) to a `DatabaseError` category. */
module PostgresClassifier {
  import opened Wrappers
  import opened Errors

  const StringDataRightTruncation: string := "22001"
  const NumericValueOutOfRange: string := "22003"
  const NotNullViolation: string := "23502"
  const ForeignKeyViolation: string := "23503"
  const UniqueViolation: string := "23505"

  /** Reference table, read in the opposite direction: the SQLSTATE that stands
      for each category. */
  function SqlStateOf(e: DatabaseError): string {
    match e
    case MaxLength => StringDataRightTruncation
    case NumericOverflow => NumericValueOutOfRange
    case CannotInsertNull => NotNullViolation
    case UniqueConstraint => UniqueViolation
    case ReferenceConstraint => ForeignKeyViolation
  }

  /** The classifier: a category exactly for the SQLSTATE the table lists for
      it, `None` for every other SQLSTATE. */
  function GetDatabaseError(sqlState: string): (r: Option<DatabaseError>)
    ensures forall e :: r == Some(e) <==> sqlState == SqlStateOf(e)
  {
    if sqlState == StringDataRightTruncation then Some(MaxLength)
    else if sqlState == NumericValueOutOfRange then Some(NumericOverflow)
    else if sqlState == NotNullViolation then Some(CannotInsertNull)
    else if sqlState == UniqueViolation then Some(UniqueConstraint)
    else if sqlState == ForeignKeyViolation then Some(ReferenceConstraint)
    else None
  }

  /** Round trip: classifying the SQLSTATE of a category gives that category
      back, so all five categories are covered and no two share a SQLSTATE. */
  lemma SqlStateRoundTrip(e: DatabaseError)
    ensures GetDatabaseError(SqlStateOf(e)) == Some(e)
  {
  }
}
