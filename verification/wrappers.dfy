/** The usual Some/None datatype, used for the source's `None`-or-value
    fields, and the regrouping of concatenations the proofs share. */
module Wrappers {
  datatype Option<+T> = None | Some(value: T)

  lemma SeqAssoc<T>(x: seq<T>, y: seq<T>, z: seq<T>)
    ensures x + y + z == x + (y + z)
  {
  }
}
