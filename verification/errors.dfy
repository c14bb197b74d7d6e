/** The ways normalization and KPI derivation fail. Each aborts the run. */
module Errors {
  import JsonValue

  datatype Error =
    /** The payload is neither a list nor an object with a list under one of the keys. */
    | NotAList(keys: seq<string>)
    /** An item has none of the aliases with a non-null value. */
    | MissingKeys(keys: seq<string>, item: JsonValue.Json)
    /** An item that is not an object cannot be indexed by an alias: a string
        or list that contains one, or a value that cannot be searched at all
        (Python raises `TypeError`). */
    | NotAnObject(item: JsonValue.Json)
    /** A text field is not a string, so it cannot be trimmed (Python raises `AttributeError`). */
    | NotAString(value: JsonValue.Json)
    /** A date value of no accepted kind, or text the date parser rejects. */
    | UnparseableDate(value: JsonValue.Json)
    /** An epoch-seconds value outside years 1..9999. */
    | DateOutOfRange(value: JsonValue.Json)
    /** The item list is empty. */
    | NoRows
    /** A required numeric column has a value that does not coerce to a number. */
    | NonNumeric
    /** A week start outside the dates pandas' nanosecond timestamps can hold
        (pandas raises `OutOfBoundsDatetime`). */
    | OutOfBoundsTimestamp
    /** A grouping KPI produced no groups. */
    | NoGroups
    /** The health rollup found no row to read a flag from (Python raises `IndexError`). */
    | MissingRow

  /** The failures the normalizer raises as its own `DataShapeError`. */
  predicate IsDataShapeError(e: Error) {
    e.NotAList? || e.MissingKeys? || e.NoRows? || e.NonNumeric?
    || (e.UnparseableDate? && !e.value.JStr?)
  }
}
