/** The order in which a loop walks a map. */
module MapOrder {
  /** Every key once, in whatever order the map keeps them. */
  ghost predicate Covers<K(!new)>(order: seq<K>, keys: set<K>) {
    && (forall k :: k in keys <==> k in order)
    && forall i, j :: 0 <= i < j < |order| ==> order[i] != order[j]
  }
}
