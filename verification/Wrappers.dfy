/** Outcome types shared by every module. */
module Wrappers {

  /** Stands for Go's nil pointers, zero times and the `math.MaxFloat64` "no data" sentinel. */
  datatype Option<+T> = None | Some(value: T)
}
