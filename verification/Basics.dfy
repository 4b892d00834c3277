/** Notions that several models share. */
module Basics {
  datatype Option<T> = None | Some(value: T)

  /** A cooperative task. */
  datatype Task = Task(id: nat)

  predicate NoDup<T(==)>(xs: seq<T>) {
    forall i, j :: 0 <= i < j < |xs| ==> xs[i] != xs[j]
  }

  /** The cores 0 .. n-1. */
  function CoreSet(n: nat): (r: set<nat>)
    ensures forall c: nat :: c in r <==> c < n
    ensures |r| == n
  {
    if n == 0 then {} else CoreSet(n - 1) + {n - 1}
  }

  function AsNumber(b: bool): nat {
    if b then 1 else 0
  }
}
