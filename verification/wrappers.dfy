/** Failure-carrying wrappers used throughout the model: `Option` for the
    source's `None` returns and `Result` for exceptions that escape a call. */
module Wrappers {

  datatype Option<+T> = None | Some(value: T) {
    function GetOr(default: T): T {
      match this
      case Some(v) => v
      case None => default
    }
  }

  datatype Result<+T, +E> = Ok(value: T) | Err(error: E) {
    predicate IsFailure() { Err? }

    function PropagateFailure<U>(): Result<U, E>
      requires Err?
    {
      Err(error)
    }

    function Extract(): T
      requires Ok?
    {
      value
    }
  }
}

/** The exceptions of the reshaping pipeline that escape to the caller.
    Each names the Python error it stands for. */
module Errors {

  datatype Fault =
    | NoMapping            // the mapper gave nothing: `.get` on None / missing fallback (AttributeError)
    | BadColumnIndexer     // `iloc` given `None` instead of a column list (ValueError)
    | IndexOutOfBounds     // `iloc` column position outside the frame (IndexError)
    | LengthMismatch(expected: nat, given: nat)  // `df.columns = keys` with the wrong count (ValueError)
    | Unreadable           // the CSV or workbook parser raised
    | MissingSheetName     // `handle(output_schema, file)` without `sheet_name` (TypeError)
    | StepLimit            // the agent graph did not reach END within the step bound
}
