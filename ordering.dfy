/**
 * The ordering that `MemoryIndexProvider<T>.GetSorted` applies to the stored entries:
 * the two null-aware comparers and LINQ's stable `OrderBy` over the entries' keys.
 * `OrderBy` is given as a stable insertion sort; `StableOrderOf` is the independent
 * description of a stable sort, and `OrderByIsTheStableOrder` shows the two agree.
 */
module Ordering {
  import opened Wrappers
  import opened Entities

  /** `int.CompareTo`: negative, zero or positive as `x` is below, equal to or above `y`. */
  function CompareTo(x: int, y: int): (r: int)
    ensures r < 0 <==> x < y
    ensures r == 0 <==> x == y
    ensures r > 0 <==> x > y
  {
    if x < y then -1 else if x == y then 0 else 1
  }

  /** The ascending comparer: a null key is below every present key. */
  function AscendingCompare(x: Option<int>, y: Option<int>): int {
    if x.None? then (if y.None? then 0 else -1)
    else if y.None? then 1
    else CompareTo(x.value, y.value)
  }

  /** The descending comparer, written out as the source writes it. */
  function DescendingCompare(x: Option<int>, y: Option<int>): int {
    if x.None? then (if y.None? then 0 else 1)
    else if y.None? then -1
    else CompareTo(y.value, x.value)
  }

  /** The comparer `GetSorted` picks for a direction. */
  function Compare(dir: SortDirection, x: Option<int>, y: Option<int>): int {
    if dir == Ascending then AscendingCompare(x, y) else DescendingCompare(x, y)
  }

  /** The descending comparer is the ascending one with its arguments swapped, nulls included. */
  lemma DescendingIsSwappedAscending(x: Option<int>, y: Option<int>)
    ensures DescendingCompare(x, y) == AscendingCompare(y, x)
  {
  }

  /** Null keys are the least keys ascending and the greatest keys descending. */
  lemma NullKeyPlacement(k: int)
    ensures AscendingCompare(None, Some(k)) < 0 && AscendingCompare(Some(k), None) > 0
    ensures DescendingCompare(None, Some(k)) > 0 && DescendingCompare(Some(k), None) < 0
    ensures AscendingCompare(None, None) == 0 && DescendingCompare(None, None) == 0
  {
  }

  /** Each comparer is antisymmetric and decides equality of keys. */
  lemma CompareAntisymmetric(dir: SortDirection, x: Option<int>, y: Option<int>)
    ensures Compare(dir, x, y) == -Compare(dir, y, x)
    ensures Compare(dir, x, y) == 0 <==> x == y
  {
  }

  /** Each comparer is transitive, also when one of the steps is strict. */
  lemma CompareTransitive(dir: SortDirection, x: Option<int>, y: Option<int>, z: Option<int>)
    requires Compare(dir, x, y) <= 0 && Compare(dir, y, z) <= 0
    ensures Compare(dir, x, z) <= 0
    ensures Compare(dir, x, y) < 0 || Compare(dir, y, z) < 0 ==> Compare(dir, x, z) < 0
  {
  }

  /** `s` is ordered by key under the comparer of `dir`. */
  ghost predicate Sorted(s: seq<IndexEntry>, dir: SortDirection) {
    forall i, j :: 0 <= i < j < |s| ==> Compare(dir, s[i].value, s[j].value) <= 0
  }

  /** The entries of `s` whose key is `v`, in their order in `s`. */
  function KeyFilter(s: seq<IndexEntry>, v: Option<int>): seq<IndexEntry> {
    if s == [] then [] else (if s[0].value == v then [s[0]] else []) + KeyFilter(s[1..], v)
  }

  /**
   * `r` is a stable ordering of `s`: sorted, and for every key the entries with that key
   * appear in `r` exactly as they appear in `s` (which makes `r` a permutation of `s`).
   */
  ghost predicate StableOrderOf(r: seq<IndexEntry>, s: seq<IndexEntry>, dir: SortDirection) {
    Sorted(r, dir) && forall v :: KeyFilter(r, v) == KeyFilter(s, v)
  }

  /** Places `e` after every entry of the sorted `s` whose key does not exceed `e`'s. */
  function Insert(e: IndexEntry, s: seq<IndexEntry>, dir: SortDirection): seq<IndexEntry> {
    if s == [] then [e]
    else if Compare(dir, e.value, s[0].value) < 0 then [e] + s
    else [s[0]] + Insert(e, s[1..], dir)
  }

  /** `_indexes.OrderBy(x => x.Value, comparer)`: a stable sort by key. */
  function OrderBy(s: seq<IndexEntry>, dir: SortDirection): seq<IndexEntry> {
    if s == [] then [] else Insert(s[|s| - 1], OrderBy(s[..|s| - 1], dir), dir)
  }

  // ---------------------------------------------------------------------------
  // KeyFilter

  lemma {:induction false} KeyFilterAppend(a: seq<IndexEntry>, b: seq<IndexEntry>, v: Option<int>)
    ensures KeyFilter(a + b, v) == KeyFilter(a, v) + KeyFilter(b, v)
  {
    if a == [] {
      assert a + b == b;
    } else {
      assert (a + b)[1..] == a[1..] + b;
      KeyFilterAppend(a[1..], b, v);
      assert KeyFilter(a + b, v) == (if a[0].value == v then [a[0]] else []) + KeyFilter(a[1..] + b, v);
    }
  }

  lemma {:induction false} KeyFilterNone(s: seq<IndexEntry>, v: Option<int>)
    requires forall i :: 0 <= i < |s| ==> s[i].value != v
    ensures KeyFilter(s, v) == []
  {
    if s != [] {
      KeyFilterNone(s[1..], v);
    }
  }

  lemma {:induction false} KeyFilterMember(s: seq<IndexEntry>, v: Option<int>, x: IndexEntry)
    requires x in KeyFilter(s, v)
    ensures x in s && x.value == v
  {
    if s != [] && !(s[0].value == v && x == s[0]) {
      KeyFilterMember(s[1..], v, x);
    }
  }

  lemma KeyFilterHead(s: seq<IndexEntry>)
    requires s != []
    ensures KeyFilter(s, s[0].value) != [] && KeyFilter(s, s[0].value)[0] == s[0]
  {
  }

  // ---------------------------------------------------------------------------
  // Insert

  lemma {:induction false} InsertPermutation(e: IndexEntry, s: seq<IndexEntry>, dir: SortDirection)
    ensures multiset(Insert(e, s, dir)) == multiset(s) + multiset{e}
  {
    if s != [] && Compare(dir, e.value, s[0].value) >= 0 {
      InsertPermutation(e, s[1..], dir);
      assert s == [s[0]] + s[1..];
    }
  }

  lemma {:induction false} InsertSorted(e: IndexEntry, s: seq<IndexEntry>, dir: SortDirection)
    requires Sorted(s, dir)
    ensures Sorted(Insert(e, s, dir), dir)
  {
    if s == [] {
    } else if Compare(dir, e.value, s[0].value) < 0 {
      var r := [e] + s;
      forall i, j | 0 <= i < j < |r| ensures Compare(dir, r[i].value, r[j].value) <= 0 {
        if i == 0 && j > 1 {
          CompareTransitive(dir, e.value, s[0].value, s[j - 1].value);
        }
      }
    } else {
      var t := Insert(e, s[1..], dir);
      InsertSorted(e, s[1..], dir);
      InsertPermutation(e, s[1..], dir);
      CompareAntisymmetric(dir, e.value, s[0].value);
      var r := [s[0]] + t;
      forall i, j | 0 <= i < j < |r| ensures Compare(dir, r[i].value, r[j].value) <= 0 {
        if i == 0 {
          assert r[j] in multiset(t);
          assert r[j] in s[1..] || r[j] == e;
        }
      }
    }
  }

  /** No entry of the sorted `s` has the key of an entry that sorts before its first. */
  lemma NoneWithSmallerKey(e: IndexEntry, s: seq<IndexEntry>, dir: SortDirection)
    requires Sorted(s, dir) && s != [] && Compare(dir, e.value, s[0].value) < 0
    ensures forall i :: 0 <= i < |s| ==> s[i].value != e.value
  {
    forall i | 0 <= i < |s| ensures s[i].value != e.value {
      if i > 0 {
        CompareTransitive(dir, e.value, s[0].value, s[i].value);
      }
      CompareAntisymmetric(dir, e.value, s[i].value);
    }
  }

  /** Placing `e` in front of the sorted `s`, before an entry with a greater key, keeps every key's entries in order. */
  lemma KeyFilterFront(e: IndexEntry, s: seq<IndexEntry>, dir: SortDirection, v: Option<int>)
    requires Sorted(s, dir) && s != [] && Compare(dir, e.value, s[0].value) < 0
    ensures KeyFilter([e] + s, v) == KeyFilter(s, v) + (if e.value == v then [e] else [])
  {
    assert ([e] + s)[1..] == s;
    if e.value == v {
      NoneWithSmallerKey(e, s, dir);
      KeyFilterNone(s, v);
    }
  }

  lemma {:induction false} InsertKeyFilter(e: IndexEntry, s: seq<IndexEntry>, dir: SortDirection, v: Option<int>)
    requires Sorted(s, dir)
    ensures KeyFilter(Insert(e, s, dir), v) == KeyFilter(s, v) + (if e.value == v then [e] else [])
  {
    if s == [] {
      assert [e][1..] == [];
    } else if Compare(dir, e.value, s[0].value) < 0 {
      KeyFilterFront(e, s, dir, v);
    } else {
      var t := Insert(e, s[1..], dir);
      assert ([s[0]] + t)[1..] == t;
      SortedTail(s, dir);
      InsertKeyFilter(e, s[1..], dir, v);
      var h := if s[0].value == v then [s[0]] else [];
      assert KeyFilter(Insert(e, s, dir), v) == h + (KeyFilter(s[1..], v) + (if e.value == v then [e] else []));
      assert h + (KeyFilter(s[1..], v) + (if e.value == v then [e] else []))
          == (h + KeyFilter(s[1..], v)) + (if e.value == v then [e] else []);
    }
  }

  lemma SortedTail(s: seq<IndexEntry>, dir: SortDirection)
    requires Sorted(s, dir) && s != []
    ensures Sorted(s[1..], dir)
  {
    forall i, j | 0 <= i < j < |s| - 1 ensures Compare(dir, s[1..][i].value, s[1..][j].value) <= 0 {
      assert s[1..][i] == s[i + 1] && s[1..][j] == s[j + 1];
    }
  }

  // ---------------------------------------------------------------------------
  // OrderBy

  /** `OrderBy` returns a permutation of its input. */
  lemma {:induction false} OrderByPermutation(s: seq<IndexEntry>, dir: SortDirection)
    ensures multiset(OrderBy(s, dir)) == multiset(s)
  {
    if s != [] {
      var init := s[..|s| - 1];
      OrderByPermutation(init, dir);
      InsertPermutation(s[|s| - 1], OrderBy(init, dir), dir);
      assert s == init + [s[|s| - 1]];
    }
  }

  /** `OrderBy` returns its input sorted under the comparer of `dir`. */
  lemma {:induction false} OrderBySorted(s: seq<IndexEntry>, dir: SortDirection)
    ensures Sorted(OrderBy(s, dir), dir)
  {
    if s != [] {
      OrderBySorted(s[..|s| - 1], dir);
      InsertSorted(s[|s| - 1], OrderBy(s[..|s| - 1], dir), dir);
    }
  }

  /** `OrderBy` is stable: entries with the same key keep their insertion order. */
  lemma {:induction false} OrderByStable(s: seq<IndexEntry>, dir: SortDirection, v: Option<int>)
    ensures KeyFilter(OrderBy(s, dir), v) == KeyFilter(s, v)
  {
    if s != [] {
      var init, last := s[..|s| - 1], s[|s| - 1];
      OrderByStable(init, dir, v);
      OrderBySorted(init, dir);
      InsertKeyFilter(last, OrderBy(init, dir), dir, v);
      assert s == init + [last];
      KeyFilterAppend(init, [last], v);
      assert [last][1..] == [];
    }
  }

  /** Two nonempty sorted sequences that agree on every key's entries start alike. */
  lemma SameFirstEntry(r1: seq<IndexEntry>, r2: seq<IndexEntry>, dir: SortDirection)
    requires r1 != [] && r2 != [] && Sorted(r1, dir) && Sorted(r2, dir)
    requires forall v :: KeyFilter(r1, v) == KeyFilter(r2, v)
    ensures r1[0] == r2[0]
  {
    var a, b := r1[0], r2[0];
    KeyFilterHead(r1);
    KeyFilterHead(r2);
    assert b in KeyFilter(r1, b.value);
    KeyFilterMember(r1, b.value, b);
    assert a in KeyFilter(r2, a.value);
    KeyFilterMember(r2, a.value, a);
    var i :| 0 <= i < |r1| && r1[i] == b;
    var j :| 0 <= j < |r2| && r2[j] == a;
    assert Compare(dir, a.value, b.value) <= 0 by {
      if i > 0 {
      }
    }
    assert Compare(dir, b.value, a.value) <= 0 by {
      if j > 0 {
      }
    }
    CompareAntisymmetric(dir, a.value, b.value);
  }

  /** Dropping a common first entry keeps two sequences agreeing on every key's entries. */
  lemma SameTailFilters(r1: seq<IndexEntry>, r2: seq<IndexEntry>)
    requires r1 != [] && r2 != [] && r1[0] == r2[0]
    requires forall v :: KeyFilter(r1, v) == KeyFilter(r2, v)
    ensures forall v :: KeyFilter(r1[1..], v) == KeyFilter(r2[1..], v)
  {
    forall v ensures KeyFilter(r1[1..], v) == KeyFilter(r2[1..], v) {
      var head := if r1[0].value == v then [r1[0]] else [];
      assert KeyFilter(r1, v) == head + KeyFilter(r1[1..], v);
      assert KeyFilter(r2, v) == head + KeyFilter(r2[1..], v);
      assert KeyFilter(r1[1..], v) == KeyFilter(r1, v)[|head|..];
    }
  }

  /** Two sorted sequences that agree on every key's entries are equal. */
  lemma {:induction false} StableOrderUnique(r1: seq<IndexEntry>, r2: seq<IndexEntry>, dir: SortDirection)
    requires Sorted(r1, dir) && Sorted(r2, dir)
    requires forall v :: KeyFilter(r1, v) == KeyFilter(r2, v)
    ensures r1 == r2
    decreases |r1|
  {
    if r1 == [] && r2 == [] {
    } else if r1 == [] || r2 == [] {
      KeyFilterHead(if r1 == [] then r2 else r1);
    } else {
      SameFirstEntry(r1, r2, dir);
      SameTailFilters(r1, r2);
      assert Sorted(r1[1..], dir) && Sorted(r2[1..], dir);
      StableOrderUnique(r1[1..], r2[1..], dir);
      assert r1 == [r1[0]] + r1[1..] && r2 == [r2[0]] + r2[1..];
    }
  }

  /**
   * `OrderBy` is the one stable ordering of its input: the result is sorted and keeps each
   * key's entries in insertion order, and every other such arrangement is that result.
   */
  lemma OrderByIsTheStableOrder(r: seq<IndexEntry>, s: seq<IndexEntry>, dir: SortDirection)
    ensures StableOrderOf(r, s, dir) <==> r == OrderBy(s, dir)
  {
    OrderBySorted(s, dir);
    forall v ensures KeyFilter(OrderBy(s, dir), v) == KeyFilter(s, v) {
      OrderByStable(s, dir, v);
    }
    if StableOrderOf(r, s, dir) {
      StableOrderUnique(r, OrderBy(s, dir), dir);
    }
  }

  /**
   * Ordering entries that were already ordered, in either direction, gives what ordering
   * the original entries gives: only the last direction matters, because each key's entries
   * keep their insertion order throughout.
   */
  lemma ReorderIsOrder(s: seq<IndexEntry>, first: SortDirection, dir: SortDirection)
    ensures OrderBy(OrderBy(s, first), dir) == OrderBy(s, dir)
  {
    var t := OrderBy(s, first);
    var r := OrderBy(t, dir);
    OrderBySorted(t, dir);
    forall v ensures KeyFilter(r, v) == KeyFilter(s, v) {
      OrderByStable(t, dir, v);
      OrderByStable(s, first, v);
    }
    OrderByIsTheStableOrder(r, s, dir);
  }

  /**
   * Ascending output is non-decreasing by key with null keys first; descending output is
   * non-increasing by key with null keys last.
   */
  lemma SortedKeys(r: seq<IndexEntry>, dir: SortDirection, i: nat, j: nat)
    requires Sorted(r, dir) && i < j < |r|
    ensures dir == Ascending && r[j].value.None? ==> r[i].value.None?
    ensures dir == Descending && r[i].value.None? ==> r[j].value.None?
    ensures r[i].value.Some? && r[j].value.Some? ==>
              if dir == Ascending then r[i].value.value <= r[j].value.value
              else r[i].value.value >= r[j].value.value
  {
    assert Compare(dir, r[i].value, r[j].value) <= 0;
  }

  /** Inserting keys 2, 3, 1 orders them 1, 2, 3 ascending and 3, 2, 1 descending. */
  lemma InsertionExample()
    ensures var s := [IndexEntry(Some(2), 0, 0), IndexEntry(Some(3), 0, 0), IndexEntry(Some(1), 0, 0)];
            OrderBy(s, Ascending) == [s[2], s[0], s[1]] && OrderBy(s, Descending) == [s[1], s[0], s[2]]
  {
    var s := [IndexEntry(Some(2), 0, 0), IndexEntry(Some(3), 0, 0), IndexEntry(Some(1), 0, 0)];
    assert s[..2] == [s[0], s[1]] && s[..2][..1] == [s[0]] && s[..2][..1][..0] == [];
    forall dir ensures OrderBy([s[0]], dir) == [s[0]] {
      assert OrderBy([s[0]], dir) == Insert(s[0], OrderBy([], dir), dir);
    }
    assert [s[1]][1..] == [] && [s[0], s[1]][1..] == [s[1]];
    assert OrderBy(s[..2], Ascending) == Insert(s[1], OrderBy([s[0]], Ascending), Ascending);
    assert OrderBy(s[..2], Descending) == Insert(s[1], OrderBy([s[0]], Descending), Descending);
    assert OrderBy(s[..2], Ascending) == [s[0], s[1]];
    assert OrderBy(s[..2], Descending) == [s[1], s[0]];
    assert OrderBy(s, Ascending) == Insert(s[2], [s[0], s[1]], Ascending);
    assert OrderBy(s, Descending) == Insert(s[2], [s[1], s[0]], Descending);
    assert [s[1], s[0]][1..] == [s[0]] && [s[0]][1..] == [];
    assert Insert(s[2], [s[0]], Descending) == [s[0], s[2]];
  }
}
