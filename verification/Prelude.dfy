/** Datatypes shared by every part of the model. */
module Prelude {

  datatype Option<+T> = None | Some(value: T)

  /** A call that changes a store. When it throws, the change may have landed all the same. */
  datatype Port = Works | Throws(landed: bool)

  predicate Lands(p: Port) {
    p.Works? || p.landed
  }

  predicate Distinct<T(==)>(s: seq<T>) {
    forall i, j | 0 <= i < j < |s| :: s[i] != s[j]
  }
}
