/** Option and the accept/reject outcome of a validator run. */
module Wrappers {

  datatype Option<T> = None | Some(value: T)

  /** What the ledger learns from a validator: it accepts, or an assertion
      failed with the given message. */
  datatype Outcome = Accept | Reject(reason: string)
}
