/**
 * What one run of `ToWriterAsync` does to a whole source, stated over the records the
 * parser reports: every entry reads back its own record, a completed run writes the header
 * first and then every data record once in the stable key order, the output's length is
 * that of the records with the line ending added where missing, a token cancelled in
 * advance stops the run before anything is written, and a completed run can be repeated.
 */
module Properties {
  import opened Wrappers
  import opened Entities
  import opened Ordering
  import opened Services
  import opened Scanning
  import opened Replaying
  import opened Sorter

  // ---------------------------------------------------------------------------
  // Sources whose records tile the stream

  /** The raw text of the first `k` records, one after the other. */
  function Flatten(records: seq<ParsedRecord>, k: nat): string
    requires k <= |records|
  {
    if k == 0 then [] else Flatten(records, k - 1) + records[k - 1].rawRecord
  }

  /** The BOM size the run finds for `s`. */
  function SourceBomSize(s: Source): nat {
    BomSize(Bom(s.preamble, s.firstCharBytes))
  }

  /**
   * The parser's view agrees with the stream: after the BOM the stream is the records' raw
   * text, and each record's byte count is the length of the text up to its end.
   */
  ghost predicate WellFormed(s: Source) {
    && SourceBomSize(s) <= |s.content|
    && s.content[SourceBomSize(s)..] == Flatten(s.records, |s.records|)
    && forall i {:trigger s.records[i].byteCount} :: 0 <= i < |s.records| ==> s.records[i].byteCount == |Flatten(s.records, i + 1)|
  }

  /** The text of the first `j` records is a prefix of the text of the first `k`. */
  lemma {:induction false} FlattenPrefix(records: seq<ParsedRecord>, j: nat, k: nat)
    requires j <= k <= |records|
    ensures |Flatten(records, j)| <= |Flatten(records, k)|
    ensures Flatten(records, k)[..|Flatten(records, j)|] == Flatten(records, j)
    decreases k
  {
    if j < k {
      FlattenPrefix(records, j, k - 1);
      var a, b := Flatten(records, k - 1), records[k - 1].rawRecord;
      assert (a + b)[..|Flatten(records, j)|] == a[..|Flatten(records, j)|];
    }
  }

  /**
   * Record `i` starts where the text of the records before it ends, and reading its raw
   * length from its offset gives back its raw text.
   */
  lemma ReadBack(s: Source, i: nat)
    requires WellFormed(s) && i < |s.records|
    ensures RecordOffset(s.records, SourceBomSize(s), i) == SourceBomSize(s) + |Flatten(s.records, i)|
    ensures ReadChars(s.content, RecordOffset(s.records, SourceBomSize(s), i), |s.records[i].rawRecord|)
            == s.records[i].rawRecord
  {
    RecordOffsetAfter(s, i);
    RecordInFlatten(s.records, i);
    ReadInTail(s.content, SourceBomSize(s), Flatten(s.records, |s.records|), |Flatten(s.records, i)|,
               RecordOffset(s.records, SourceBomSize(s), i), s.records[i].rawRecord);
  }

  /** The scan's offset for record `i` is the BOM size plus the length of the records before it. */
  lemma RecordOffsetAfter(s: Source, i: nat)
    requires WellFormed(s) && i < |s.records|
    ensures RecordOffset(s.records, SourceBomSize(s), i) == SourceBomSize(s) + |Flatten(s.records, i)|
  {
    if i > 0 {
      assert s.records[i - 1].byteCount == |Flatten(s.records, i)|;
    }
  }

  /** A piece of the stream's text after the BOM reads back from the BOM size plus its place. */
  lemma ReadInTail(content: string, bom: nat, tail: string, a: nat, offset: nat, raw: string)
    requires bom <= |content| && content[bom..] == tail
    requires a + |raw| <= |tail| && tail[a..a + |raw|] == raw && offset == bom + a
    ensures ReadChars(content, offset, |raw|) == raw
  {
    SliceOfSlice(content, bom, a, a + |raw|);
    ReadInside(content, offset, |raw|);
  }

  /** Reading inside the stream gives the units there. */
  lemma ReadInside(content: string, offset: nat, length: nat)
    requires offset + length <= |content|
    ensures ReadChars(content, offset, length) == content[offset..offset + length]
  {
  }

  /** Record `i`'s raw text sits in the records' text right after the text of the records before it. */
  lemma RecordInFlatten(records: seq<ParsedRecord>, i: nat)
    requires i < |records|
    ensures var a, raw := |Flatten(records, i)|, records[i].rawRecord;
            a + |raw| <= |Flatten(records, |records|)| && Flatten(records, |records|)[a..a + |raw|] == raw
  {
    var before, raw := Flatten(records, i), records[i].rawRecord;
    FlattenPrefix(records, i + 1, |records|);
    var upTo, all := Flatten(records, i + 1), Flatten(records, |records|);
    assert upTo == before + raw;
    assert all[|before|..|before| + |raw|] == upTo[|before|..] == raw;
  }

  lemma SliceOfSlice<T>(s: seq<T>, i: nat, j: nat, k: nat)
    requires i <= |s| && j <= k <= |s| - i
    ensures s[i..][j..k] == s[i + j..i + k]
  {
  }

  /** The scan parameters of a run over `s`. */
  function ParamsOf(s: Source, hasHeaderRecord: bool, selector: FieldSelector, token: CancellationToken): ScanParams {
    RunScanParams(s, hasHeaderRecord, selector, token)
  }

  /** The `j`-th of the entries `added` reads back the raw text of record `j + h`. */
  ghost predicate EntriesReadBack(s: Source, added: seq<IndexEntry>, h: nat) {
    && h + |added| <= |s.records|
    && forall j :: 0 <= j < |added| ==>
         ReadChars(s.content, added[j].offset, added[j].length) == s.records[j + h].rawRecord
  }

  /**
   * After a completed scan, the `j`-th entry added to the store reads back data record
   * `j + h` (where `h` counts the header record): its key, and its raw text at its offset.
   */
  lemma ScannedEntriesReadBack(s: Source, hasHeaderRecord: bool, selector: FieldSelector, token: CancellationToken)
    requires WellFormed(s)
    requires Scan(s.records, |s.records|, ParamsOf(s, hasHeaderRecord, selector, token)).failure.None?
    ensures var p := ParamsOf(s, hasHeaderRecord, selector, token);
            var added, h := Scan(s.records, |s.records|, p).added, HeaderCount(s.records, p);
            && |added| + h == |s.records|
            && (forall j :: 0 <= j < |added| ==> GetField(s.records[j + h], selector) == Success(added[j].value))
            && EntriesReadBack(s, added, h)
  {
    var p := ParamsOf(s, hasHeaderRecord, selector, token);
    ScanEntries(s.records, |s.records|, p);
    assert s.records[..|s.records|] == s.records;
    var added, h := Scan(s.records, |s.records|, p).added, HeaderCount(s.records, p);
    forall j | 0 <= j < |added|
      ensures GetField(s.records[j + h], selector) == Success(added[j].value)
      ensures ReadChars(s.content, added[j].offset, added[j].length) == s.records[j + h].rawRecord
    {
      ReadBack(s, j + h);
    }
  }

  // ---------------------------------------------------------------------------
  // The replayed text

  /** Replaying one more entry writes its chunk after the text so far. */
  lemma ReplayTextSnoc(content: string, es: seq<IndexEntry>, e: IndexEntry, lineEnding: string)
    ensures ReplayText(content, es + [e], lineEnding) == ReplayText(content, es, lineEnding) + EntryChunk(content, e, lineEnding)
  {
    assert (es + [e])[..|es|] == es;
  }

  /** Replaying two runs of entries writes the first run's text, then the second's. */
  lemma {:induction false} ReplayTextAppend(content: string, a: seq<IndexEntry>, b: seq<IndexEntry>, lineEnding: string)
    ensures ReplayText(content, a + b, lineEnding) == ReplayText(content, a, lineEnding) + ReplayText(content, b, lineEnding)
    decreases |b|
  {
    if b == [] {
      assert a + b == a;
    } else {
      var init, last := b[..|b| - 1], b[|b| - 1];
      assert b == init + [last];
      assert a + b == (a + init) + [last];
      var x, y, z := ReplayText(content, a, lineEnding), ReplayText(content, init, lineEnding), EntryChunk(content, last, lineEnding);
      ReplayTextSnoc(content, a + init, last, lineEnding);
      ReplayTextSnoc(content, init, last, lineEnding);
      ReplayTextAppend(content, a, init, lineEnding);
      AppendAssociative(x, y, z);
    }
  }

  /** Replaying the entries of `[e] + s` writes `e`'s chunk, then those of `s`. */
  lemma ReplayTextFront(content: string, e: IndexEntry, s: seq<IndexEntry>, lineEnding: string)
    ensures ReplayText(content, [e] + s, lineEnding) == EntryChunk(content, e, lineEnding) + ReplayText(content, s, lineEnding)
  {
    ReplayTextAppend(content, [e], s, lineEnding);
    ReplayTextSnoc(content, [], e, lineEnding);
    assert [] + [e] == [e];
    assert [] + EntryChunk(content, e, lineEnding) == EntryChunk(content, e, lineEnding);
  }

  /** Inserting an entry lengthens the replayed text by the entry's chunk. */
  lemma {:induction false} InsertReplayLength(content: string, e: IndexEntry, s: seq<IndexEntry>, dir: SortDirection, lineEnding: string)
    ensures |ReplayText(content, Insert(e, s, dir), lineEnding)|
            == |ReplayText(content, s, lineEnding)| + |EntryChunk(content, e, lineEnding)|
  {
    if s == [] {
      ReplayTextFront(content, e, [], lineEnding);
    } else if Compare(dir, e.value, s[0].value) < 0 {
      ReplayTextFront(content, e, s, lineEnding);
    } else {
      var rest := Insert(e, s[1..], dir);
      InsertReplayLength(content, e, s[1..], dir, lineEnding);
      ReplayTextFront(content, s[0], rest, lineEnding);
      ReplayTextFront(content, s[0], s[1..], lineEnding);
      assert [s[0]] + s[1..] == s;
    }
  }

  /** Ordering the entries does not change the length of the replayed text. */
  lemma {:induction false} OrderByReplayLength(content: string, s: seq<IndexEntry>, dir: SortDirection, lineEnding: string)
    ensures |ReplayText(content, OrderBy(s, dir), lineEnding)| == |ReplayText(content, s, lineEnding)|
  {
    if s != [] {
      OrderByReplayLength(content, s[..|s| - 1], dir, lineEnding);
      InsertReplayLength(content, s[|s| - 1], OrderBy(s[..|s| - 1], dir), dir, lineEnding);
    }
  }

  /** The length of the first `k` records' raw text with the line ending added where missing. */
  function ChunkedLength(records: seq<ParsedRecord>, k: nat, lineEnding: string): nat
    requires k <= |records|
  {
    if k == 0 then 0 else ChunkedLength(records, k - 1, lineEnding) + ChunkSize(records[k - 1].rawRecord, lineEnding)
  }

  /** The scanned entries' chunks are as long as their records' chunks. */
  lemma {:induction false} AddedChunkLength(s: Source, added: seq<IndexEntry>, h: nat, m: nat, lineEnding: string)
    requires m <= |added| && EntriesReadBack(s, added, h)
    ensures |ReplayText(s.content, added[..m], lineEnding)| + ChunkedLength(s.records, h, lineEnding)
            == ChunkedLength(s.records, h + m, lineEnding)
  {
    if m > 0 {
      AddedChunkLength(s, added, h, m - 1, lineEnding);
      var e := added[m - 1];
      assert added[..m] == added[..m - 1] + [e];
      ReplayTextSnoc(s.content, added[..m - 1], e, lineEnding);
      var raw := s.records[(m - 1) + h].rawRecord;
      assert ReadChars(s.content, e.offset, e.length) == raw;
      ChunkLength(raw, lineEnding);
      assert ChunkedLength(s.records, h + m, lineEnding)
             == ChunkedLength(s.records, h + m - 1, lineEnding) + ChunkSize(raw, lineEnding);
    } else {
      assert added[..0] == [];
    }
  }

  /** Records that all end with the line ending keep their length. */
  lemma {:induction false} ChunkedLengthUniform(records: seq<ParsedRecord>, k: nat, lineEnding: string)
    requires k <= |records|
    requires forall i :: 0 <= i < k ==> EndsWith(records[i].rawRecord, lineEnding)
    ensures ChunkedLength(records, k, lineEnding) == |Flatten(records, k)|
  {
    if k > 0 {
      ChunkedLengthUniform(records, k - 1, lineEnding);
    }
  }

  /** When only the last record lacks the line ending, one line ending is added in all. */
  lemma ChunkedLengthLastUnterminated(records: seq<ParsedRecord>, lineEnding: string)
    requires records != []
    requires forall i :: 0 <= i < |records| - 1 ==> EndsWith(records[i].rawRecord, lineEnding)
    requires !EndsWith(records[|records| - 1].rawRecord, lineEnding)
    ensures ChunkedLength(records, |records|, lineEnding) == |Flatten(records, |records|)| + |lineEnding|
  {
    ChunkedLengthUniform(records, |records| - 1, lineEnding);
  }

  // ---------------------------------------------------------------------------
  // Whole runs

  /** The header's share of the output: its chunk when the format has a header. */
  function HeaderText(s: Source, hasHeaderRecord: bool, lineEnding: string): string
    requires s.records != []
  {
    if hasHeaderRecord then Chunk(s.records[0].rawRecord, lineEnding) else []
  }

  /** No check point of a run over `s` (the scan's, then the replay's) reads the token as cancelled. */
  predicate NeverCancelled(s: Source, token: CancellationToken) {
    NotCancelledBefore(token, 2 * |s.records|)
  }

  /** Every data record's sort field can be read and converted. */
  predicate AllKeysReadable(s: Source, hasHeaderRecord: bool, selector: FieldSelector, token: CancellationToken) {
    forall i :: 0 <= i < |s.records| ==> KeyReadable(s.records, i, ParamsOf(s, hasHeaderRecord, selector, token))
  }

  /**
   * A scan over a non-empty source that is never cancelled and whose keys can all be read
   * completes, finds the first record's line ending, makes the first record the header
   * when the format has one, and adds one entry per other record.
   */
  lemma CompletedScan(s: Source, hasHeaderRecord: bool, selector: FieldSelector, token: CancellationToken)
    requires s.records != []
    requires NeverCancelled(s, token) && AllKeysReadable(s, hasHeaderRecord, selector, token)
    ensures var p := ParamsOf(s, hasHeaderRecord, selector, token);
            var scan := Scan(s.records, |s.records|, p);
            && scan.failure.None?
            && scan.lineEnding == Some(LineEndingOf(s.records[0].rawRecord))
            && scan.header == (if hasHeaderRecord then Some(HeaderEntry(s.records, p.bomSize)) else None)
            && |scan.added| + HeaderCount(s.records, p) == |s.records|
  {
    var p := ParamsOf(s, hasHeaderRecord, selector, token);
    var n := |s.records|;
    forall i | 0 <= i < n ensures !CheckCancelled(p, i) {
    }
    ScanCompletes(s.records, n, p);
    ScanEntries(s.records, n, p);
    assert s.records[..n] == s.records;
  }

  /**
   * Replaying the header (if any) and then `sorted` with a line ending known and no check
   * point cancelled writes their chunks in that order.
   */
  lemma CompletedReplay(
    content: string, header: Option<IndexEntry>, sorted: seq<IndexEntry>, checkEach: bool,
    lineEnding: string, token: CancellationToken, firstCheck: nat)
    requires NotCancelledBefore(token, firstCheck + |sorted| + (if header.Some? then 1 else 0))
    ensures var ys := Yields(header, sorted, checkEach);
            var replay := Replay(ys, |ys|, content, Some(lineEnding), token, firstCheck);
            && replay.failure.None?
            && replay.output == ReplayText(content, (if header.Some? then [header.value] else []) + sorted, lineEnding)
  {
    var ys := Yields(header, sorted, checkEach);
    ReplayWrites(ys, |ys|, content, lineEnding, token, firstCheck);
    assert ys[..|ys|] == ys;
  }

  /** The header entry of a well-formed source replays as the header's chunk. */
  lemma HeaderReplay(s: Source, hasHeaderRecord: bool, rest: seq<IndexEntry>, lineEnding: string)
    requires WellFormed(s) && s.records != []
    ensures var headerEntries := if hasHeaderRecord then [HeaderEntry(s.records, SourceBomSize(s))] else [];
            ReplayText(s.content, headerEntries + rest, lineEnding)
            == HeaderText(s, hasHeaderRecord, lineEnding) + ReplayText(s.content, rest, lineEnding)
  {
    if hasHeaderRecord {
      ReadBack(s, 0);
      ReplayTextFront(s.content, HeaderEntry(s.records, SourceBomSize(s)), rest, lineEnding);
    } else {
      assert [] + rest == rest;
    }
  }

  /**
   * A run on a fresh sorter with a store, over a non-empty source that is never cancelled
   * and whose keys can all be read, completes: the line ending is the first record's, the header entry is
   * the first record when the format has one, the store is emptied, every step is taken in
   * order, and the output is the header's chunk followed by the chunks of the scanned
   * entries in the stable key order.
   */
  lemma CompletedRun(
    s: Source, hasHeaderRecord: bool, selector: FieldSelector, direction: SortDirection,
    slot: StoreSlot, hooks: set<Hook>, token: CancellationToken)
    requires slot != NoStore
    requires WellFormed(s) && s.records != []
    requires NeverCancelled(s, token) && AllKeysReadable(s, hasHeaderRecord, selector, token)
    ensures var p := ParamsOf(s, hasHeaderRecord, selector, token);
            var added := Scan(s.records, |s.records|, p).added;
            var le := LineEndingOf(s.records[0].rawRecord);
            var r := Run(s, hasHeaderRecord, selector, direction, slot, hooks, None, None, [], token);
            && r.failure.None?
            && r.lineEnding == Some(le)
            && r.header == (if hasHeaderRecord then Some(HeaderEntry(s.records, p.bomSize)) else None)
            && r.store == []
            && r.output == HeaderText(s, hasHeaderRecord, le) + ReplayText(s.content, OrderBy(added, direction), le)
            && r.steps == [BomRead] + Invoke(hooks, IndexCreationStarted) + SortingSteps(hooks, true)
  {
    var p := ParamsOf(s, hasHeaderRecord, selector, token);
    var n := |s.records|;
    CompletedScan(s, hasHeaderRecord, selector, token);
    var scan := Scan(s.records, n, p);
    var le := LineEndingOf(s.records[0].rawRecord);
    assert [] + scan.added == scan.added;
    var indexed := IndexingRun(s, hasHeaderRecord, selector, slot, hooks, None, None, [], token);
    assert indexed == RunOutcome([], None, Some(le), scan.header, scan.added, [BomRead] + Invoke(hooks, IndexCreationStarted));
    var sorted := OrderBy(scan.added, direction);
    OrderByPermutation(scan.added, direction);
    assert |sorted| == |multiset(sorted)| == |scan.added|;
    CompletedReplay(s.content, scan.header, sorted, slot == Synchronous, le, token, n);
    HeaderReplay(s, hasHeaderRecord, sorted, le);
    var ys := Yields(scan.header, sorted, slot == Synchronous);
    var replay := Replay(ys, |ys|, s.content, Some(le), token, n);
    assert [] + replay.output == replay.output;
  }

  /**
   * The header's chunk and the chunks of the scanned entries, in any stable key order, are
   * together as long as all records' chunks.
   */
  lemma ScannedTextLength(s: Source, hasHeaderRecord: bool, selector: FieldSelector, direction: SortDirection, token: CancellationToken)
    requires WellFormed(s) && s.records != []
    requires NeverCancelled(s, token) && AllKeysReadable(s, hasHeaderRecord, selector, token)
    ensures var added := Scan(s.records, |s.records|, ParamsOf(s, hasHeaderRecord, selector, token)).added;
            var le := LineEndingOf(s.records[0].rawRecord);
            |HeaderText(s, hasHeaderRecord, le)| + |ReplayText(s.content, OrderBy(added, direction), le)|
            == ChunkedLength(s.records, |s.records|, le)
  {
    var p := ParamsOf(s, hasHeaderRecord, selector, token);
    CompletedScan(s, hasHeaderRecord, selector, token);
    ScannedEntriesReadBack(s, hasHeaderRecord, selector, token);
    var added, h := Scan(s.records, |s.records|, p).added, HeaderCount(s.records, p);
    HeaderAndEntriesLength(s, hasHeaderRecord, added, h, direction, LineEndingOf(s.records[0].rawRecord));
  }

  /** The header's chunk and the chunks of entries reading back the other records cover all records. */
  lemma HeaderAndEntriesLength(s: Source, hasHeaderRecord: bool, added: seq<IndexEntry>, h: nat, direction: SortDirection, lineEnding: string)
    requires s.records != [] && h == (if hasHeaderRecord then 1 else 0)
    requires h + |added| == |s.records| && EntriesReadBack(s, added, h)
    ensures |HeaderText(s, hasHeaderRecord, lineEnding)| + |ReplayText(s.content, OrderBy(added, direction), lineEnding)|
            == ChunkedLength(s.records, |s.records|, lineEnding)
  {
    OrderByReplayLength(s.content, added, direction, lineEnding);
    AddedChunkLength(s, added, h, |added|, lineEnding);
    assert added[..|added|] == added;
    if hasHeaderRecord {
      ChunkLength(s.records[0].rawRecord, lineEnding);
      assert ChunkedLength(s.records, 1, lineEnding) == ChunkSize(s.records[0].rawRecord, lineEnding);
    }
  }

  /**
   * The output of a completed run is exactly as long as the records' raw text with the line
   * ending added to each record that lacks it. That each record is written once is
   * `CompletedRunWritesEachRecordOnce`.
   */
  lemma CompletedRunLength(
    s: Source, hasHeaderRecord: bool, selector: FieldSelector, direction: SortDirection,
    slot: StoreSlot, hooks: set<Hook>, token: CancellationToken)
    requires slot != NoStore
    requires WellFormed(s) && s.records != []
    requires NeverCancelled(s, token) && AllKeysReadable(s, hasHeaderRecord, selector, token)
    ensures var r := Run(s, hasHeaderRecord, selector, direction, slot, hooks, None, None, [], token);
            |r.output| == ChunkedLength(s.records, |s.records|, LineEndingOf(s.records[0].rawRecord))
  {
    CompletedRun(s, hasHeaderRecord, selector, direction, slot, hooks, token);
    ScannedTextLength(s, hasHeaderRecord, selector, direction, token);
  }

  /**
   * Without a store (a null one was set), a run that would otherwise complete still reads
   * every key but drops the entries, so it writes the header's chunk and nothing else.
   */
  lemma RunWithoutStoreWritesHeaderOnly(
    s: Source, hasHeaderRecord: bool, selector: FieldSelector, direction: SortDirection,
    hooks: set<Hook>, token: CancellationToken)
    requires WellFormed(s) && s.records != []
    requires NeverCancelled(s, token) && AllKeysReadable(s, hasHeaderRecord, selector, token)
    ensures var le := LineEndingOf(s.records[0].rawRecord);
            var r := Run(s, hasHeaderRecord, selector, direction, NoStore, hooks, None, None, [], token);
            && r.failure.None?
            && r.lineEnding == Some(le)
            && r.store == []
            && r.output == HeaderText(s, hasHeaderRecord, le)
            && r.steps == [BomRead] + Invoke(hooks, IndexCreationStarted) + SortingSteps(hooks, true)
  {
    var p := ParamsOf(s, hasHeaderRecord, selector, token);
    var n := |s.records|;
    CompletedScan(s, hasHeaderRecord, selector, token);
    var scan := Scan(s.records, n, p);
    var le := LineEndingOf(s.records[0].rawRecord);
    var indexed := IndexingRun(s, hasHeaderRecord, selector, NoStore, hooks, None, None, [], token);
    assert indexed == RunOutcome([], None, Some(le), scan.header, [], [BomRead] + Invoke(hooks, IndexCreationStarted));
    CompletedReplay(s.content, scan.header, [], false, le, token, n);
    HeaderReplay(s, hasHeaderRecord, [], le);
    var ys := Yields(scan.header, [], false);
    var replay := Replay(ys, |ys|, s.content, Some(le), token, n);
    assert [] + replay.output == replay.output;
  }

  // ---------------------------------------------------------------------------
  // Every data record is written once

  /** `f` applied to each of the entries `es`. */
  function MapEntries(f: IndexEntry -> string, es: seq<IndexEntry>): seq<string> {
    seq(|es|, k requires 0 <= k < |es| => f(es[k]))
  }

  /** The chunks the replay writes for the entries `es`, one per entry. */
  function EntryChunks(content: string, es: seq<IndexEntry>, lineEnding: string): seq<string> {
    MapEntries(e => EntryChunk(content, e, lineEnding), es)
  }

  /** The chunks of records `from` to `to - 1`, in the source's order. */
  function RecordChunks(records: seq<ParsedRecord>, from: nat, to: nat, lineEnding: string): seq<string>
    requires from <= to <= |records|
  {
    seq(to - from, k requires 0 <= k < to - from => Chunk(records[from + k].rawRecord, lineEnding))
  }

  /** The texts `ss`, one after the other. */
  function Concat(ss: seq<string>): string {
    if ss == [] then [] else Concat(ss[..|ss| - 1]) + ss[|ss| - 1]
  }

  /** The replayed text is the concatenation of the entries' chunks. */
  lemma {:induction false} ReplayTextIsConcat(content: string, es: seq<IndexEntry>, lineEnding: string)
    ensures ReplayText(content, es, lineEnding) == Concat(EntryChunks(content, es, lineEnding))
  {
    if es != [] {
      var init := es[..|es| - 1];
      ReplayTextIsConcat(content, init, lineEnding);
      assert EntryChunks(content, es, lineEnding)[..|es| - 1] == EntryChunks(content, init, lineEnding);
    }
  }

  /** Inserting an entry adds its image to the images of the others, in some place. */
  lemma {:induction false} InsertImages(f: IndexEntry -> string, e: IndexEntry, s: seq<IndexEntry>, dir: SortDirection)
    ensures multiset(MapEntries(f, Insert(e, s, dir))) == multiset(MapEntries(f, s)) + multiset{f(e)}
  {
    if s == [] {
      assert MapEntries(f, [e]) == [f(e)];
    } else if Compare(dir, e.value, s[0].value) < 0 {
      assert MapEntries(f, [e] + s) == [f(e)] + MapEntries(f, s);
    } else {
      var rest := Insert(e, s[1..], dir);
      InsertImages(f, e, s[1..], dir);
      assert MapEntries(f, [s[0]] + rest) == [f(s[0])] + MapEntries(f, rest);
      assert MapEntries(f, s) == [f(s[0])] + MapEntries(f, s[1..]);
    }
  }

  /** Ordering the entries rearranges their images. */
  lemma {:induction false} OrderByImages(f: IndexEntry -> string, s: seq<IndexEntry>, dir: SortDirection)
    ensures multiset(MapEntries(f, OrderBy(s, dir))) == multiset(MapEntries(f, s))
  {
    if s != [] {
      var init, last := s[..|s| - 1], s[|s| - 1];
      OrderByImages(f, init, dir);
      InsertImages(f, last, OrderBy(init, dir), dir);
      assert MapEntries(f, s) == MapEntries(f, init) + [f(last)];
    }
  }

  /**
   * Entries that read back records `h` onwards, in any stable key order, have as chunks
   * those records' chunks, rearranged.
   */
  lemma SortedDataChunks(s: Source, added: seq<IndexEntry>, h: nat, direction: SortDirection, lineEnding: string)
    requires h + |added| == |s.records| && EntriesReadBack(s, added, h)
    ensures multiset(EntryChunks(s.content, OrderBy(added, direction), lineEnding))
            == multiset(RecordChunks(s.records, h, |s.records|, lineEnding))
  {
    OrderByImages(e => EntryChunk(s.content, e, lineEnding), added, direction);
    assert EntryChunks(s.content, added, lineEnding) == RecordChunks(s.records, h, h + |added|, lineEnding);
  }

  /**
   * A completed run writes the header's chunk and then the chunks of the data records,
   * each of them once, in some order.
   */
  lemma CompletedRunWritesEachRecordOnce(
    s: Source, hasHeaderRecord: bool, selector: FieldSelector, direction: SortDirection,
    slot: StoreSlot, hooks: set<Hook>, token: CancellationToken)
    requires slot != NoStore
    requires WellFormed(s) && s.records != []
    requires NeverCancelled(s, token) && AllKeysReadable(s, hasHeaderRecord, selector, token)
    ensures var r := Run(s, hasHeaderRecord, selector, direction, slot, hooks, None, None, [], token);
            var le := LineEndingOf(s.records[0].rawRecord);
            exists chunks: seq<string> ::
              && multiset(chunks) == multiset(RecordChunks(s.records, if hasHeaderRecord then 1 else 0, |s.records|, le))
              && r.output == HeaderText(s, hasHeaderRecord, le) + Concat(chunks)
  {
    var p := ParamsOf(s, hasHeaderRecord, selector, token);
    var le := LineEndingOf(s.records[0].rawRecord);
    var added := Scan(s.records, |s.records|, p).added;
    CompletedRun(s, hasHeaderRecord, selector, direction, slot, hooks, token);
    ReplayTextIsConcat(s.content, OrderBy(added, direction), le);
    DataChunks(s, hasHeaderRecord, selector, direction, token);
    var chunks := EntryChunks(s.content, OrderBy(added, direction), le);
    assert multiset(chunks) == multiset(RecordChunks(s.records, if hasHeaderRecord then 1 else 0, |s.records|, le));
  }

  /** The chunks of a completed scan's entries, in key order, are the data records' chunks rearranged. */
  lemma DataChunks(s: Source, hasHeaderRecord: bool, selector: FieldSelector, direction: SortDirection, token: CancellationToken)
    requires WellFormed(s) && s.records != []
    requires NeverCancelled(s, token) && AllKeysReadable(s, hasHeaderRecord, selector, token)
    ensures var added := Scan(s.records, |s.records|, ParamsOf(s, hasHeaderRecord, selector, token)).added;
            var le := LineEndingOf(s.records[0].rawRecord);
            multiset(EntryChunks(s.content, OrderBy(added, direction), le))
            == multiset(RecordChunks(s.records, if hasHeaderRecord then 1 else 0, |s.records|, le))
  {
    var p := ParamsOf(s, hasHeaderRecord, selector, token);
    CompletedScan(s, hasHeaderRecord, selector, token);
    ScannedEntriesReadBack(s, hasHeaderRecord, selector, token);
    var added, h := Scan(s.records, |s.records|, p).added, HeaderCount(s.records, p);
    assert h == if hasHeaderRecord then 1 else 0;
    SortedDataChunks(s, added, h, direction, LineEndingOf(s.records[0].rawRecord));
  }

  /**
   * When every record ends with the first record's terminator, a completed run writes
   * exactly as many units as the source holds after its BOM.
   */
  lemma UniformTerminatorsKeepLength(
    s: Source, hasHeaderRecord: bool, selector: FieldSelector, direction: SortDirection,
    slot: StoreSlot, hooks: set<Hook>, token: CancellationToken)
    requires slot != NoStore
    requires WellFormed(s) && s.records != []
    requires NeverCancelled(s, token) && AllKeysReadable(s, hasHeaderRecord, selector, token)
    requires forall i :: 0 <= i < |s.records| ==> EndsWith(s.records[i].rawRecord, LineEndingOf(s.records[0].rawRecord))
    ensures var r := Run(s, hasHeaderRecord, selector, direction, slot, hooks, None, None, [], token);
            |r.output| == |s.content| - SourceBomSize(s)
  {
    CompletedRunLength(s, hasHeaderRecord, selector, direction, slot, hooks, token);
    ChunkedLengthUniform(s.records, |s.records|, LineEndingOf(s.records[0].rawRecord));
  }

  /**
   * When only the last record lacks the first record's terminator, a completed run writes
   * the source's units after the BOM plus one line ending.
   */
  lemma UnterminatedLastRecordGainsLineEnding(
    s: Source, hasHeaderRecord: bool, selector: FieldSelector, direction: SortDirection,
    slot: StoreSlot, hooks: set<Hook>, token: CancellationToken)
    requires slot != NoStore
    requires WellFormed(s) && s.records != []
    requires NeverCancelled(s, token) && AllKeysReadable(s, hasHeaderRecord, selector, token)
    requires var le, n := LineEndingOf(s.records[0].rawRecord), |s.records|;
             && (forall i :: 0 <= i < n - 1 ==> EndsWith(s.records[i].rawRecord, le))
             && !EndsWith(s.records[n - 1].rawRecord, le)
    ensures var r := Run(s, hasHeaderRecord, selector, direction, slot, hooks, None, None, [], token);
            |r.output| == |s.content| - SourceBomSize(s) + |LineEndingOf(s.records[0].rawRecord)|
  {
    CompletedRunLength(s, hasHeaderRecord, selector, direction, slot, hooks, token);
    ChunkedLengthLastUnterminated(s.records, LineEndingOf(s.records[0].rawRecord));
  }

  /**
   * A token cancelled before the first check point stops a run over a non-empty source at
   * the scan's first record: nothing is written, the sorter's state is untouched, and only
   * the BOM read and the started hook happen.
   */
  lemma RunCancelledInAdvance(
    s: Source, hasHeaderRecord: bool, selector: FieldSelector, direction: SortDirection,
    slot: StoreSlot, hooks: set<Hook>,
    lineEnding0: Option<string>, header0: Option<IndexEntry>, store0: seq<IndexEntry>, token: CancellationToken)
    requires s.records != [] && IsCancellationRequested(token, 0)
    ensures Run(s, hasHeaderRecord, selector, direction, slot, hooks, lineEnding0, header0, store0, token)
            == RunOutcome([], Some(OperationCanceled), lineEnding0, header0, store0, [BomRead] + Invoke(hooks, IndexCreationStarted))
  {
    ScanCancelledInAdvance(s.records, ParamsOf(s, hasHeaderRecord, selector, token));
    assert store0 + [] == store0;
  }

  /**
   * A source with no records completes on a fresh sorter whatever the token: nothing is
   * scanned, nothing is replayed, so no check point is ever reached.
   */
  lemma EmptySourceCompletes(
    s: Source, hasHeaderRecord: bool, selector: FieldSelector, direction: SortDirection,
    slot: StoreSlot, hooks: set<Hook>, token: CancellationToken)
    requires s.records == []
    ensures Run(s, hasHeaderRecord, selector, direction, slot, hooks, None, None, [], token)
            == RunOutcome([], None, None, None, [], [BomRead] + Invoke(hooks, IndexCreationStarted) + SortingSteps(hooks, true))
  {
    var ys := Yields(None, OrderBy([], direction), slot == Synchronous);
    assert ys == [];
  }

  /**
   * A completed run on a fresh sorter leaves a state from which the same run does exactly
   * the same again: the line ending is kept, the header replaced by itself, and the store,
   * emptied at the end, is filled with the same entries.
   */
  lemma RunIsRepeatable(
    s: Source, hasHeaderRecord: bool, selector: FieldSelector, direction: SortDirection,
    slot: StoreSlot, hooks: set<Hook>, token: CancellationToken)
    requires Run(s, hasHeaderRecord, selector, direction, slot, hooks, None, None, [], token).failure.None?
    ensures var r := Run(s, hasHeaderRecord, selector, direction, slot, hooks, None, None, [], token);
            Run(s, hasHeaderRecord, selector, direction, slot, hooks, r.lineEnding, r.header, r.store, token) == r
  {
    var p := ParamsOf(s, hasHeaderRecord, selector, token);
    var scan := Scan(s.records, |s.records|, p);
    var r := Run(s, hasHeaderRecord, selector, direction, slot, hooks, None, None, [], token);
    assert [] + scan.added == scan.added;
    var first := IndexingRun(s, hasHeaderRecord, selector, slot, hooks, None, None, [], token);
    var second := IndexingRun(s, hasHeaderRecord, selector, slot, hooks, r.lineEnding, r.header, r.store, token);
    assert r.lineEnding == first.lineEnding && r.header == first.header;
    assert second == first;
  }

  /** Two completed scans of the same records with the same field add the same entries, whatever their tokens. */
  lemma ScanAddedIgnoresToken(s: Source, hasHeaderRecord: bool, selector: FieldSelector, token: CancellationToken, token2: CancellationToken)
    requires Scan(s.records, |s.records|, ParamsOf(s, hasHeaderRecord, selector, token)).failure.None?
    requires Scan(s.records, |s.records|, ParamsOf(s, hasHeaderRecord, selector, token2)).failure.None?
    ensures Scan(s.records, |s.records|, ParamsOf(s, hasHeaderRecord, selector, token)).added
            == Scan(s.records, |s.records|, ParamsOf(s, hasHeaderRecord, selector, token2)).added
  {
    var p, p2 := ParamsOf(s, hasHeaderRecord, selector, token), ParamsOf(s, hasHeaderRecord, selector, token2);
    var n := |s.records|;
    ScanEntries(s.records, n, p);
    ScanEntries(s.records, n, p2);
    var added, added2 := Scan(s.records, n, p).added, Scan(s.records, n, p2).added;
    var h := HeaderCount(s.records[..n], p);
    assert h == HeaderCount(s.records[..n], p2);
    forall j | 0 <= j < |added| ensures added[j] == added2[j] {
      assert EntryAt(s.records, j + h, p) == EntryAt(s.records, j + h, p2);
    }
  }

  /**
   * A run whose scan completes but whose replay fails (cancelled, or no line ending) leaves
   * the scanned entries in the store, so the next scan on the same sorter appends them a
   * second time and every data record would be replayed twice.
   */
  lemma FailedReplayKeepsEntries(
    s: Source, hasHeaderRecord: bool, selector: FieldSelector, direction: SortDirection,
    slot: StoreSlot, hooks: set<Hook>, token: CancellationToken, token2: CancellationToken)
    requires slot != NoStore
    requires IndexingRun(s, hasHeaderRecord, selector, slot, hooks, None, None, [], token).failure.None?
    requires Run(s, hasHeaderRecord, selector, direction, slot, hooks, None, None, [], token).failure.Some?
    requires Scan(s.records, |s.records|, ParamsOf(s, hasHeaderRecord, selector, token2)).failure.None?
    ensures var added := Scan(s.records, |s.records|, ParamsOf(s, hasHeaderRecord, selector, token)).added;
            var r := Run(s, hasHeaderRecord, selector, direction, slot, hooks, None, None, [], token);
            && r.store == added
            && IndexingRun(s, hasHeaderRecord, selector, slot, hooks, r.lineEnding, r.header, r.store, token2).store == added + added
  {
    var added := Scan(s.records, |s.records|, ParamsOf(s, hasHeaderRecord, selector, token)).added;
    var indexed := IndexingRun(s, hasHeaderRecord, selector, slot, hooks, None, None, [], token);
    assert [] + added == added && indexed.store == added;
    var r := Run(s, hasHeaderRecord, selector, direction, slot, hooks, None, None, [], token);
    assert r == SortingRun(s, direction, slot, hooks, token, indexed);
    assert r.store == added;
    ScanAddedIgnoresToken(s, hasHeaderRecord, selector, token, token2);
  }
}
