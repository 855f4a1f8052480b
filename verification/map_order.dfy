/**
 * Go visits the entries of a map in an unspecified order. Operations that
 * iterate a map take that order as an explicit parameter: a sequence listing
 * every key exactly once.
 */
module MapOrder {

  /** `order` lists every element of `keys` exactly once and nothing else. */
  ghost predicate Enumerates<K>(order: seq<K>, keys: set<K>) {
    && (forall i, j :: 0 <= i < j < |order| ==> order[i] != order[j])
    && (forall i :: 0 <= i < |order| ==> order[i] in keys)
    && (forall k :: k in keys ==> k in order)
  }
}
