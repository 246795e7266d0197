/** Value types shared by every part of the usage-tracking backend. */
module Common {

  /** A value that may be absent: a missing request field, an unset
      environment variable, or a JavaScript result that is `undefined`/`NaN`. */
  datatype Option<+T> = None | Some(value: T)

  /** The outcome of an operation that can throw. */
  datatype Result<+T, +E> = Ok(value: T) | Err(error: E)

  /** The two readings the backend takes from `new Date()` when it stamps or
      filters a row: `month` is the "YYYY-MM" prefix of the UTC ISO string and
      `year` is the local calendar year. They are passed in, not read. */
  datatype Clock = Clock(month: string, year: int)
}
