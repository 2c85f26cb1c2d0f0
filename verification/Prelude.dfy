/** Small datatypes shared by every model. */
module Prelude {
  datatype Option<+T> = None | Some(value: T)

  /** A block's content hash; only its equality matters. */
  type BlockKey = string

  /** One slot of a local DRAM pool. */
  datatype Slot = Slot(pool: string, index: nat)

  datatype Result<+T, +E> = Ok(value: T) | Err(error: E)
}
