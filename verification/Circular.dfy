/** Sequences used as rings. */
module Circular {

  /** An index brought back into a ring of n places. */
  function Wrap(a: nat, n: nat): nat
    requires a < 2 * n
  {
    if a < n then a else a - n
  }

  /** count items from a place on, around the ring. */
  function Around<T>(ring: seq<T>, first: nat, count: nat): (r: seq<T>)
    requires first <= |ring| && count <= |ring| && ring != []
    ensures |r| == count && forall i | 0 <= i < count :: r[i] == ring[Wrap(first + i, |ring|)]
  {
    seq(count, i requires 0 <= i < count => ring[Wrap(first + i, |ring|)])
  }
}
