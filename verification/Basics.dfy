/** What several parts of the model share. */
module Basics {

  newtype Byte = x: int | 0 <= x < 256

  /** Association identifiers are handed out by sctplib; 0 names no association. */
  type AssocId = nat

  datatype Option<+T> = None | Some(value: T)

  function Min(a: nat, b: nat): nat {
    if a <= b then a else b
  }
}
