/**
 * `IndexService<T>`: holds the one active index store (the synchronous or the asynchronous
 * slot) and the optional header entry, and produces the replay order.
 */
module Services {
  import opened Wrappers
  import opened Entities
  import opened Ordering
  import opened Providers

  /**
   * One element of the lazy sequence `GetSorted` returns: the entry, and whether the
   * enumerator runs a cancellation check before yielding it.
   */
  datatype Yield = Yield(entry: IndexEntry, checked: bool)

  /** The entries of a yield sequence, in order. */
  function EntriesOf(ys: seq<Yield>): (es: seq<IndexEntry>)
    ensures |es| == |ys| && forall k :: 0 <= k < |ys| ==> es[k] == ys[k].entry
  {
    if ys == [] then [] else EntriesOf(ys[..|ys| - 1]) + [ys[|ys| - 1].entry]
  }

  /** The entries `es`, each marked with whether the enumerator checks before yielding it. */
  function Tagged(es: seq<IndexEntry>, checked: bool): (ys: seq<Yield>)
    ensures |ys| == |es| && forall k :: 0 <= k < |es| ==> ys[k] == Yield(es[k], checked)
  {
    if es == [] then [] else Tagged(es[..|es| - 1], checked) + [Yield(es[|es| - 1], checked)]
  }

  /** Tagging one more entry appends its tagged form. */
  lemma TaggedSnoc(es: seq<IndexEntry>, i: nat, checked: bool)
    requires i < |es|
    ensures Tagged(es[..i + 1], checked) == Tagged(es[..i], checked) + [Yield(es[i], checked)]
  {
    assert es[..i + 1][..i] == es[..i];
  }

  /**
   * The replay order: the header (checked) if one is set, then the store's sorted entries,
   * each checked when `checkEach` holds (the synchronous store) and unchecked otherwise
   * (the asynchronous store receives the token itself).
   */
  function Yields(header: Option<IndexEntry>, sorted: seq<IndexEntry>, checkEach: bool): (ys: seq<Yield>)
    ensures EntriesOf(ys) == (if header.Some? then [header.value] else []) + sorted
    ensures header.Some? ==> ys[0] == Yield(header.value, true)
    ensures var h := if header.Some? then 1 else 0;
            |ys| == h + |sorted| && forall k :: h <= k < |ys| ==> ys[k].checked == checkEach
  {
    var ys := (if header.Some? then [Yield(header.value, true)] else []) + Tagged(sorted, checkEach);
    assert EntriesOf(ys) == (if header.Some? then [header.value] else []) + sorted;
    ys
  }

  /**
   * Which slot holds a store. The setters accept null, and a null store leaves neither
   * slot filled: then entries are dropped, the replay yields only the header, and clearing
   * does nothing.
   */
  datatype StoreSlot = Synchronous | Asynchronous | NoStore

  /** The entries a store in `slot` holds after `added` is appended to `store`: none are kept without a store. */
  function Kept(slot: StoreSlot, store: seq<IndexEntry>, added: seq<IndexEntry>): (kept: seq<IndexEntry>)
    ensures slot != NoStore ==> kept == store + added
    ensures slot == NoStore ==> kept == store
  {
    if slot == NoStore then store else store + added
  }

  class IndexService {
    var indexProvider: MemoryIndexProvider?
    var asyncIndexProvider: MemoryIndexProvider?
    var headerIndex: Option<IndexEntry>

    /** At most one of the two store slots is filled: each setter empties the other one. */
    ghost predicate Valid()
      reads this`indexProvider, this`asyncIndexProvider
    {
      indexProvider == null || asyncIndexProvider == null
    }

    /** The store in whichever slot is filled, or null when neither is. */
    function Active(): (store: MemoryIndexProvider?)
      reads this`indexProvider, this`asyncIndexProvider
      requires Valid()
      ensures store == null <==> indexProvider == null && asyncIndexProvider == null
    {
      if indexProvider != null then indexProvider else asyncIndexProvider
    }

    /** Which slot is filled. */
    function Slot(): (slot: StoreSlot)
      reads this`indexProvider, this`asyncIndexProvider
      ensures slot == Synchronous <==> indexProvider != null
      ensures slot == NoStore <==> indexProvider == null && asyncIndexProvider == null
    {
      if indexProvider != null then Synchronous else if asyncIndexProvider != null then Asynchronous else NoStore
    }

    /** The entries of the filled slot's store; none when no slot is filled. */
    function Entries(): seq<IndexEntry>
      reads this`indexProvider, this`asyncIndexProvider, Active()
      requires Valid()
    {
      if Active() == null then [] else Active().indexes
    }

    constructor (provider: MemoryIndexProvider)
      ensures Valid() && indexProvider == provider && asyncIndexProvider == null
      ensures headerIndex == None
    {
      indexProvider := provider;
      asyncIndexProvider := null;
      headerIndex := None;
    }

    constructor WithAsyncProvider(provider: MemoryIndexProvider)
      ensures Valid() && asyncIndexProvider == provider && indexProvider == null
      ensures headerIndex == None
    {
      asyncIndexProvider := provider;
      indexProvider := null;
      headerIndex := None;
    }

    /** Puts `provider` (possibly null) in the asynchronous slot and empties the other slot. */
    method SetAsyncIndexProvider(provider: MemoryIndexProvider?)
      modifies this`indexProvider, this`asyncIndexProvider
      ensures Valid() && asyncIndexProvider == provider && indexProvider == null
      ensures Slot() == if provider == null then NoStore else Asynchronous
    {
      asyncIndexProvider := provider;
      indexProvider := null;
    }

    /** Puts `provider` (possibly null) in the synchronous slot and empties the other slot. */
    method SetIndexProvider(provider: MemoryIndexProvider?)
      modifies this`indexProvider, this`asyncIndexProvider
      ensures Valid() && indexProvider == provider && asyncIndexProvider == null
      ensures Slot() == if provider == null then NoStore else Synchronous
    {
      indexProvider := provider;
      asyncIndexProvider := null;
    }

    /** Adds `index` to the filled slot's store and to nothing else; without a store it is dropped. */
    method AddIndex(index: IndexEntry)
      requires Valid()
      modifies Active()
      ensures Entries() == Kept(Slot(), old(Entries()), [index])
    {
      if indexProvider != null {
        indexProvider.Add(index);
      }
      if asyncIndexProvider != null {
        asyncIndexProvider.Add(index);
      }
    }

    /** Replaces any previous header; no store sees the header. */
    method SetHeaderIndex(header: IndexEntry)
      modifies this`headerIndex
      ensures headerIndex == Some(header)
    {
      headerIndex := Some(header);
    }

    /**
     * The replay order for `direction`: the header first when one is set, then the filled
     * slot's sorted entries in that store's order (nothing when no slot is filled). Each
     * element records whether the enumerator checks the token before yielding it: the
     * header always, the elements of the synchronous store each time, those of the
     * asynchronous store never (that store gets the token).
     */
    method GetSorted(direction: SortDirection) returns (ys: seq<Yield>)
      requires Valid()
      ensures ys == Yields(headerIndex, OrderBy(Entries(), direction), Slot() == Synchronous)
    {
      ys := [];
      if headerIndex.Some? {
        ys := [Yield(headerIndex.value, true)];
      }
      ghost var header := ys;
      var sorted: seq<IndexEntry> := [];
      if asyncIndexProvider != null {
        sorted := asyncIndexProvider.GetSorted(direction);
      } else if indexProvider != null {
        sorted := indexProvider.GetSorted(direction);
      }
      var checkEach := asyncIndexProvider == null;
      for i := 0 to |sorted|
        invariant ys == header + Tagged(sorted[..i], checkEach)
      {
        TaggedSnoc(sorted, i, checkEach);
        ys := ys + [Yield(sorted[i], checkEach)];
      }
      assert sorted[..|sorted|] == sorted;
    }

    /** Empties the filled slot's store; the header survives. */
    method Clear()
      requires Valid()
      modifies Active()
      ensures Entries() == []
      ensures headerIndex == old(headerIndex)
    {
      if indexProvider != null {
        indexProvider.Clear();
      }
      if asyncIndexProvider != null {
        asyncIndexProvider.Clear();
      }
    }
  }
}
