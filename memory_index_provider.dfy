/** `MemoryIndexProvider<T>`: the default, in-memory index store. */
module Providers {
  import opened Entities
  import opened Ordering

  /**
   * An append-only list of index entries with `Clear`. `GetSorted` orders a copy and leaves
   * the list as it is.
   */
  class MemoryIndexProvider {
    var indexes: seq<IndexEntry>

    constructor ()
      ensures indexes == []
    {
      indexes := [];
    }

    /** Appends `record`; the entries already stored are unchanged. */
    method Add(record: IndexEntry)
      modifies this
      ensures indexes == old(indexes) + [record]
    {
      indexes := indexes + [record];
    }

    /**
     * The stored entries ordered by key with the comparer of `sortDirection`, entries with
     * equal keys in insertion order. The store itself is not modified.
     */
    method GetSorted(sortDirection: SortDirection) returns (r: seq<IndexEntry>)
      ensures r == OrderBy(indexes, sortDirection)
      ensures multiset(r) == multiset(indexes) && |r| == |indexes|
      ensures Sorted(r, sortDirection)
      ensures forall v :: KeyFilter(r, v) == KeyFilter(indexes, v)
    {
      r := OrderBy(indexes, sortDirection);
      OrderByPermutation(indexes, sortDirection);
      OrderBySorted(indexes, sortDirection);
      forall v ensures KeyFilter(r, v) == KeyFilter(indexes, v) {
        OrderByStable(indexes, sortDirection, v);
      }
      assert |r| == |multiset(r)| == |multiset(indexes)| == |indexes|;
    }

    /** Empties the store, so that `GetSorted` yields nothing in either direction. */
    method Clear()
      modifies this
      ensures indexes == []
    {
      indexes := [];
    }
  }
}
