/** Small notions several modules share. */
module Basics {

  datatype Option<+T> = None | Some(value: T)

  const UINT32: nat := 0x1_0000_0000

  type Uint32 = n: nat | n < UINT32

  ghost predicate Distinct<T(!new)>(order: seq<T>) {
    forall i, j | 0 <= i < j < |order| :: order[i] != order[j]
  }

  /** The keys of a map in the order one `range` over it happens to visit them. */
  ghost predicate Enumerates<T(!new)>(order: seq<T>, keys: set<T>) {
    && (forall x :: x in order <==> x in keys)
    && Distinct(order)
  }
}
