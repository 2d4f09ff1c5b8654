/** Small failure-carrying datatypes shared by every module. */
module Wrappers {

  /** A value that may be absent (JavaScript `undefined` or `null`). */
  datatype Option<+T> = None | Some(value: T)

  /** The value of an operation that either completes or throws an Error with a message. */
  datatype Result<+T> = Ok(value: T) | Err(message: string)

  /** What an external service (payment provider, database, mail transport)
      does when it is called: it answers, or it throws an Error with a message. */
  datatype Call = Succeeds | Throws(message: string)
}
