/** The two result types the other modules share. */
module Wrappers {

  datatype Option<+T> = None | Some(value: T)

  /** A validator's answer; the wording of a refusal is not kept. */
  datatype Checked<+T> = Ok(value: T) | Rejected
}
