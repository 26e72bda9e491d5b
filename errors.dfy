/** The portable failure categories shared by every engine-specific classifier. */
module Errors {

  /** The five categories a driver failure can be classified into. */
  datatype DatabaseError =
    | UniqueConstraint
    | CannotInsertNull
    | MaxLength
    | NumericOverflow
    | ReferenceConstraint
}
