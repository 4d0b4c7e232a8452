// What the modules of the model share: an optional value, and a fact about sequences.
module Wrappers {

  datatype Option<+T> = None | Some(value: T)

  lemma Regrouped<T>(a: seq<T>, b: seq<T>, c: seq<T>)
    ensures (a + b) + c == a + (b + c)
  {}
}
