/** Failure kinds of the access-key codec and the Result/Option wrappers that carry them.
    The Java code throws exceptions; here every operation returns a value instead. */
module Errors {

  /** The positional segment (or constructor argument) a failure is about. */
  datatype Field =
    | StateField
    | PeriodField
    | CnpjField
    | ModelField
    | SeriesField
    | NumberField
    | IssueModeField
    | CodeField

  datatype Error =
    /** AccessKeyException: the key is null or not exactly 44 characters of [A-Z0-9]. */
    | Format
    /** AccessKeyException: a numeric code that no entry of a closed table carries. */
    | UnknownCode(field: Field, value: int)
    /** AccessKeyException: a table code given as text that Integer.parseInt refuses. */
    | NotNumeric(field: Field, text: string)
    /** NumberFormatException thrown by Integer.parseInt and NOT wrapped
        (series, number and numeric code segments). */
    | NumberFormat(field: Field, text: string)
    /** AccessKeyException from a range validator: the value is below zero. */
    | Negative(field: Field, value: int)
    /** AccessKeyException from a range validator: the value has too many digits. */
    | TooLarge(field: Field, value: int)
    /** DateTimeParseException: the yyMM segment is not a year and month. */
    | BadPeriod(text: string)
    /** Whatever the CNPJ library throws for an issuer id it refuses. */
    | BadCnpj(text: string)
    /** AccessKeyException: the check digit found differs from the expected one. */
    | Mismatch(expected: int, found: int)
    /** NullPointerException: a required constructor argument is missing. */
    | Missing(field: Field)

  datatype Option<+T> = None | Some(value: T)

  datatype Result<+T> = Ok(value: T) | Err(error: Error) {

    predicate IsFailure() {
      Err?
    }

    function PropagateFailure<U>(): Result<U>
      requires Err?
    {
      Err(error)
    }

    function Extract(): T
      requires Ok?
    {
      value
    }
  }
}
