/** Bytes, optional values and the two bounds every module uses. */
module Basics {

  type byte = b: nat | b < 256

  datatype Option<+T> = None | Some(value: T)

  function Max(a: nat, b: nat): nat { if a < b then b else a }
  function Min(a: nat, b: nat): nat { if a < b then a else b }
}
