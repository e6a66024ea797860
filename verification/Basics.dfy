/** Vocabulary shared by every component of the model. */
module Basics {

  /** A value that may be absent: Go's `(T, error)` with the error text dropped, or a nil pointer. */
  datatype Option<+T> = None | Some(value: T)

  newtype Byte = x: int | 0 <= x < 256

  type Bytes = seq<Byte>

  /** Random opaque identifiers (`prefix_` followed by hex). */
  type Id = string

  /** Instants, as whole seconds; 0 stands for Go's zero time. */
  type Time = int

  predicate Distinct<T(==)>(s: seq<T>) {
    forall i, j :: 0 <= i < j < |s| ==> s[i] != s[j]
  }

  /** `order` visits every key of `m` exactly once: one possible iteration order of a Go map. */
  ghost predicate Enumerates<K(!new), V>(m: map<K, V>, order: seq<K>) {
    && Distinct(order)
    && (forall k :: k in order <==> k in m)
  }

  /** Go's map iteration: some order, each key once. */
  method IterationOrder<K(==, !new), V>(m: map<K, V>) returns (order: seq<K>)
    ensures Enumerates(m, order)
  {
    order := [];
    var rest := m.Keys;
    while rest != {}
      invariant rest <= m.Keys
      invariant Distinct(order)
      invariant forall k :: k in order <==> k in m && k !in rest
      decreases rest
    {
      var k :| k in rest;
      rest := rest - {k};
      order := order + [k];
    }
  }
}
