/** Small failure-carrying datatypes shared by the whole model. */
module Wrappers {

  /** A value that may be absent: JavaScript's `null`/`undefined` next to a present value. */
  datatype Option<+T> = None | Some(value: T)

  /** The result of an awaited call to a collaborator that is not modelled:
      it either resolves with a value or rejects. */
  datatype Outcome<+T> = Ok(value: T) | Fail
}
