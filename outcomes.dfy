/** What a call in the pipeline can end in: a value, or a raised exception
    carrying its message text. */
module Outcomes {

  datatype Outcome<+T> = Ok(value: T) | Raise(error: string)

  datatype Option<+T> = None | Some(value: T)

  /** The message of a raised exception; the empty text for a success. */
  function ErrorText<T>(o: Outcome<T>): string
  {
    if o.Raise? then o.error else ""
  }
}
