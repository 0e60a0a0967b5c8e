/** Small helpers shared by every module of the model. */
module Prelude {

  datatype Option<+T> = None | Some(value: T)

  /** Go strings and byte slices: sequences of octets. */
  type Byte = x: int | 0 <= x < 256

  type Bytes = seq<Byte>

  lemma ConcatAssociates<T>(a: seq<T>, b: seq<T>, c: seq<T>)
    ensures a + b + c == a + (b + c)
  {
  }

  predicate Distinct<T(==)>(xs: seq<T>) {
    forall i, j :: 0 <= i < j < |xs| ==> xs[i] != xs[j]
  }
}
