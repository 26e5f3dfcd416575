/**
 * `CsvSorter<T>`: the builder that holds the reader, the sort field, the configuration and
 * the hooks, and `ToWriterAsync`, which finds the byte-order mark, scans the source into the
 * index store, replays the source's records in key order into a writer, empties the store,
 * flushes the writer and rewinds the reader.
 *
 * The source stream is modelled as one unit per byte (`content`): the BOM, when present,
 * occupies the first units, and every other unit is one character. This is the single-byte
 * encoding under which the source's byte offsets and character lengths agree.
 */
module Sorter {
  import opened Wrappers
  import opened Entities
  import opened Ordering
  import opened Providers
  import opened Services
  import opened Scanning
  import opened Replaying

  newtype byte = x: int | 0 <= x < 256

  /**
   * What the reader gives access to: the stream's units, the preamble of the reader's
   * encoding, the encoding of the first character read from the start of the stream (the
   * BOM character when there is one, '\0' for an empty stream), and the records the CSV
   * parser reports when started right after the BOM.
   */
  datatype Source = Source(content: string, preamble: seq<byte>, firstCharBytes: seq<byte>, records: seq<ParsedRecord>)

  /** The parts of `CsvConfiguration` the sorter depends on. */
  datatype CsvConfiguration = CsvConfiguration(hasHeaderRecord: bool, countBytes: bool)

  /**
   * `new CsvConfiguration(CultureInfo.InvariantCulture) { CountBytes = true }`: CsvHelper
   * expects a header record by default, and the sorter turns byte counting on.
   */
  function DefaultConfiguration(): (config: CsvConfiguration)
    ensures config.hasHeaderRecord && config.countBytes
  {
    CsvConfiguration(true, true)
  }

  /** The four callbacks a caller can register. */
  datatype Hook = IndexCreationStarted | IndexCreationFinished | SortingStarted | SortingFinished

  /** The observable steps of one run, in the order they happen. */
  datatype Step = BomRead | HookInvoked(hook: Hook) | IndexCreated | SortedWritten | StoreCleared | WriterFlushed | ReaderRewound

  /** How the sort field was given to the constructor. */
  datatype FieldArgument = NameArgument(name: Option<string>) | IndexArgument(index: int)

  // ---------------------------------------------------------------------------
  // Construction

  /** `char.IsWhiteSpace`: the Unicode space separators, line and paragraph separators, and U+0009-U+000D, U+0085. */
  predicate IsWhiteSpace(c: char) {
    ('\t' <= c <= '\r') || c == ' ' || c == '\U{0085}' || c == '\U{00A0}' || c == '\U{1680}'
    || ('\U{2000}' <= c <= '\U{200A}') || c == '\U{2028}' || c == '\U{2029}' || c == '\U{202F}'
    || c == '\U{205F}' || c == '\U{3000}'
  }

  /** `string.IsNullOrWhiteSpace`. */
  predicate IsNullOrWhiteSpace(s: Option<string>) {
    s.None? || forall i :: 0 <= i < |s.value| ==> IsWhiteSpace(s.value[i])
  }

  /**
   * The exception a constructor throws, if any: a missing reader first, then a field name
   * that is null, empty or white space, or a negative field index, each reported as an
   * `ArgumentNullException` naming the parameter.
   */
  function ConstructionError(readerGiven: bool, field: FieldArgument): (e: Option<SortError>)
    ensures e.None? <==> readerGiven && match field
                                        case NameArgument(name) => !IsNullOrWhiteSpace(name)
                                        case IndexArgument(index) => index >= 0
    ensures e.Some? ==> e.value.ArgumentNull?
    ensures !readerGiven ==> e == Some(ArgumentNull("reader"))
  {
    if !readerGiven then Some(ArgumentNull("reader"))
    else match field
      case NameArgument(name) => if IsNullOrWhiteSpace(name) then Some(ArgumentNull("fieldName")) else None
      case IndexArgument(index) => if index < 0 then Some(ArgumentNull("fieldIndex")) else None
  }

  /** The selector a successful construction records. */
  function SelectorOf(field: FieldArgument): FieldSelector
    requires ConstructionError(true, field).None?
  {
    match field
    case NameArgument(name) => FieldName(name.value)
    case IndexArgument(index) => FieldIndex(index)
  }

  /**
   * The constructor cases the source's tests exercise: a null reader, an empty or null
   * field name and a negative index are rejected; an index of zero and a non-blank name
   * are accepted.
   */
  lemma ConstructionCases()
    ensures ConstructionError(false, NameArgument(Some("name"))) == Some(ArgumentNull("reader"))
    ensures ConstructionError(true, NameArgument(Some(""))) == Some(ArgumentNull("fieldName"))
    ensures ConstructionError(true, NameArgument(None)) == Some(ArgumentNull("fieldName"))
    ensures ConstructionError(true, NameArgument(Some(" \t"))) == Some(ArgumentNull("fieldName"))
    ensures ConstructionError(true, IndexArgument(-1)) == Some(ArgumentNull("fieldIndex"))
    ensures ConstructionError(true, IndexArgument(0)) == None
    ensures ConstructionError(true, NameArgument(Some("name"))) == None
  {
    assert !IsWhiteSpace("name"[0]);
  }

  // ---------------------------------------------------------------------------
  // The byte-order mark

  /**
   * `GetBomAsync`: the preamble when the first character, encoded, equals it, and null
   * otherwise.
   */
  function Bom(preamble: seq<byte>, firstCharBytes: seq<byte>): (b: Option<seq<byte>>)
    ensures b.Some? <==> preamble == firstCharBytes
    ensures b.Some? ==> b.value == preamble
  {
    if preamble == firstCharBytes then Some(preamble) else None
  }

  /** `bom?.Count ?? 0`: how many units the scan skips. */
  function BomSize(bom: Option<seq<byte>>): (n: nat)
    ensures bom.None? ==> n == 0
    ensures bom.Some? ==> n == |bom.value|
  {
    match bom
    case Some(b) => |b|
    case None => 0
  }

  // ---------------------------------------------------------------------------
  // One run of ToWriterAsync, as a function of the state it starts from

  /**
   * What a run leaves behind: the text written, the exception it ended with, the sorter's
   * line ending, the service's header entry, the filled slot's entries (none when no slot
   * is filled), and the steps taken.
   */
  datatype RunOutcome = RunOutcome(
    output: string,
    failure: Option<SortError>,
    lineEnding: Option<string>,
    header: Option<IndexEntry>,
    store: seq<IndexEntry>,
    steps: seq<Step>)

  /** The invocation of hook `h`, when one is registered. */
  function Invoke(hooks: set<Hook>, h: Hook): seq<Step> {
    if h in hooks then [HookInvoked(h)] else []
  }

  /** The scan parameters of a run: the scan's check points come first, numbered from 0. */
  function RunScanParams(s: Source, hasHeaderRecord: bool, selector: FieldSelector, token: CancellationToken): ScanParams {
    ScanParams(BomSize(Bom(s.preamble, s.firstCharBytes)), hasHeaderRecord, selector, token, 0)
  }

  /**
   * The first half of a run: the BOM is read, the creation-started hook runs, and the scan
   * sets the line ending if none is known, replaces the header and appends to the store in
   * `slot` (without a store the entries are dropped); it may stop with an exception.
   * Nothing is written yet.
   */
  function IndexingRun(
    s: Source, hasHeaderRecord: bool, selector: FieldSelector, slot: StoreSlot, hooks: set<Hook>,
    lineEnding0: Option<string>, header0: Option<IndexEntry>, store0: seq<IndexEntry>,
    token: CancellationToken): RunOutcome
  {
    var scan := Scan(s.records, |s.records|, RunScanParams(s, hasHeaderRecord, selector, token));
    RunOutcome([], scan.failure,
               if lineEnding0.Some? then lineEnding0 else scan.lineEnding,
               if scan.header.Some? then scan.header else header0,
               Kept(slot, store0, scan.added),
               [BomRead] + Invoke(hooks, IndexCreationStarted))
  }

  /**
   * The steps of the second half: the scan is done, two hooks run, and when the replay
   * completes the store is emptied, the writer flushed, the reader rewound and the last
   * hook run.
   */
  function SortingSteps(hooks: set<Hook>, completed: bool): seq<Step> {
    [IndexCreated] + Invoke(hooks, IndexCreationFinished) + Invoke(hooks, SortingStarted)
    + (if completed then [SortedWritten] + Finishing(hooks) else [])
  }

  /** The steps after a completed replay: the store is emptied, the writer flushed, the reader rewound, the last hook run. */
  function Finishing(hooks: set<Hook>): seq<Step> {
    [StoreCleared, WriterFlushed, ReaderRewound] + Invoke(hooks, SortingFinished)
  }

  /**
   * The second half of a run, from the state `r` the first half left: the replay of the
   * service's order for that state (its check points numbered after the scan's, one per
   * record) is written; it ends with the replay's exception, or with the store emptied.
   * Only the synchronous store's elements are checked by the enumerator.
   */
  function SortingRun(s: Source, direction: SortDirection, slot: StoreSlot, hooks: set<Hook>, token: CancellationToken, r: RunOutcome): RunOutcome {
    var ys := Yields(r.header, OrderBy(r.store, direction), slot == Synchronous);
    var replay := Replay(ys, |ys|, s.content, r.lineEnding, token, |s.records|);
    var store := if replay.failure.Some? then r.store else [];
    RunOutcome(r.output + replay.output, replay.failure, r.lineEnding, r.header, store,
               r.steps + SortingSteps(hooks, replay.failure.None?))
  }

  /**
   * One run of `ToWriterAsync` with a writer: the first half, and the second half when the
   * first completed. An exception skips everything after it.
   */
  function Run(
    s: Source, hasHeaderRecord: bool, selector: FieldSelector, direction: SortDirection,
    slot: StoreSlot, hooks: set<Hook>,
    lineEnding0: Option<string>, header0: Option<IndexEntry>, store0: seq<IndexEntry>,
    token: CancellationToken): RunOutcome
  {
    var indexed := IndexingRun(s, hasHeaderRecord, selector, slot, hooks, lineEnding0, header0, store0, token);
    if indexed.failure.Some? then indexed else SortingRun(s, direction, slot, hooks, token, indexed)
  }

  /** The second half adds its text and its steps to those of the state it starts from. */
  lemma SortingRunShift(s: Source, direction: SortDirection, slot: StoreSlot, hooks: set<Hook>, token: CancellationToken, r: RunOutcome)
    ensures var q := SortingRun(s, direction, slot, hooks, token, r.(output := [], steps := []));
            SortingRun(s, direction, slot, hooks, token, r) == q.(output := r.output + q.output, steps := r.steps + q.steps)
  {
    var ys := Yields(r.header, OrderBy(r.store, direction), slot == Synchronous);
    var replay := Replay(ys, |ys|, s.content, r.lineEnding, token, |s.records|);
    var steps := SortingSteps(hooks, replay.failure.None?);
    assert [] + replay.output == replay.output && [] + steps == steps;
  }

  /** Regroups concatenated output and step sequences; Dafny does not apply this on its own
      when a sequence is built up one piece at a time. */
  lemma AppendAssociative<T>(a: seq<T>, b: seq<T>, c: seq<T>)
    ensures (a + b) + c == a + (b + c)
  {
  }

  // ---------------------------------------------------------------------------
  // The reader and the writer

  /** A `StreamReader` over a seekable stream: its source and its position. */
  class StreamReader {
    const source: Source
    var position: nat

    constructor (source: Source)
      ensures this.source == source && position == 0
    {
      this.source := source;
      position := 0;
    }

    /** `SeekReader(offset)`: seek the base stream and drop buffered data. */
    method Seek(offset: nat)
      modifies this`position
      ensures position == offset
    {
      position := offset;
    }

    /**
     * `ReadAsync(c, 0, length)` into a fresh `char[length]`: the units from the position on,
     * '\0'-padded past the end; the position moves past the units read.
     */
    method Read(length: nat) returns (c: string)
      modifies this`position
      ensures c == ReadChars(source.content, old(position), length)
      ensures position == if old(position) < |source.content| then Min(old(position) + length, |source.content|) else old(position)
    {
      c := ReadChars(source.content, position, length);
      if position < |source.content| {
        position := Min(position + length, |source.content|);
      }
    }

    /** `GetBomAsync`: peek, rewind, read one character and compare its encoding with the preamble. */
    method GetBom() returns (bom: Option<seq<byte>>)
      modifies this`position
      ensures bom == Bom(source.preamble, source.firstCharBytes)
      ensures position == Min(1, |source.content|)
    {
      Seek(0);
      var c := Read(1);
      // Encoding `c` is not modelled: its bytes are given as `source.firstCharBytes`.
      bom := Bom(source.preamble, source.firstCharBytes);
    }
  }

  /** A `TextWriter`: what was written, and what of it has been flushed. */
  class TextWriter {
    var text: string
    var flushed: string

    constructor ()
      ensures text == [] && flushed == []
    {
      text := [];
      flushed := [];
    }

    method Write(s: string)
      modifies this`text
      ensures text == old(text) + s
    {
      text := text + s;
    }

    method Flush()
      modifies this`flushed
      ensures flushed == text
    {
      flushed := text;
    }
  }

  // ---------------------------------------------------------------------------
  // The sorter

  class CsvSorter {
    const reader: StreamReader
    const selector: FieldSelector
    const indexService: IndexService
    var lineEnding: Option<string>
    var csvConfig: CsvConfiguration
    var sortDirection: SortDirection
    var hooks: set<Hook>
    var steps: seq<Step>

    /** At most one store slot is filled, and the parser counts bytes. */
    ghost predicate Valid()
      reads this`csvConfig, indexService`indexProvider, indexService`asyncIndexProvider
    {
      indexService.Valid() && csvConfig.countBytes
    }

    /** What the next `ToWriterAsync` with a writer does, from the current state. */
    ghost function NextRun(token: CancellationToken): RunOutcome
      reads this, indexService, indexService.Active()
      requires Valid()
    {
      Run(reader.source, csvConfig.hasHeaderRecord, selector, sortDirection,
          indexService.Slot(), hooks,
          lineEnding, indexService.headerIndex, indexService.Entries(), token)
    }

    /** The state after a successful construction: a fresh synchronous store and the defaults. */
    constructor (reader: StreamReader, selector: FieldSelector)
      ensures Valid() && fresh(indexService) && fresh(indexService.Active())
      ensures this.reader == reader && this.selector == selector
      ensures indexService.Slot() == Synchronous && indexService.Entries() == [] && indexService.headerIndex == None
      ensures lineEnding == None && csvConfig == DefaultConfiguration() && sortDirection == Ascending
      ensures hooks == {} && steps == []
    {
      this.reader := reader;
      this.selector := selector;
      var store := new MemoryIndexProvider();
      indexService := new IndexService(store);
      lineEnding := None;
      csvConfig := DefaultConfiguration();
      sortDirection := Ascending;
      hooks := {};
      steps := [];
    }

    /**
     * `new CsvSorter<T>(reader, fieldName)` and `new CsvSorter<T>(reader, fieldIndex)`: the
     * constructor's exception, or a fresh sorter that sorts by the given field.
     */
    static method Create(reader: StreamReader?, field: FieldArgument) returns (r: Result<CsvSorter, SortError>)
      ensures r.Failure? <==> ConstructionError(reader != null, field).Some?
      ensures r.Failure? ==> r.error == ConstructionError(reader != null, field).value
      ensures r.Success? ==> fresh(r.value) && r.value.Valid() && r.value.reader == reader
                             && r.value.selector == SelectorOf(field)
      ensures r.Success? ==> && fresh(r.value.indexService) && fresh(r.value.indexService.Active())
                             && r.value.indexService.Slot() == Synchronous && r.value.indexService.Entries() == []
                             && r.value.indexService.headerIndex == None
                             && r.value.lineEnding == None && r.value.csvConfig == DefaultConfiguration()
                             && r.value.sortDirection == Ascending && r.value.hooks == {} && r.value.steps == []
    {
      var e := ConstructionError(reader != null, field);
      if e.Some? {
        return Failure(e.value);
      }
      var sorter := new CsvSorter(reader, SelectorOf(field));
      return Success(sorter);
    }

    /**
     * `Using(IIndexProvider<T>)`: the given store becomes the synchronous one and the other
     * slot is emptied; a null store, which is not refused, leaves no slot filled.
     */
    method UseIndexProvider(provider: MemoryIndexProvider?)
      requires Valid()
      modifies indexService`indexProvider, indexService`asyncIndexProvider
      ensures Valid() && indexService.Active() == provider
      ensures indexService.Slot() == if provider == null then NoStore else Synchronous
    {
      indexService.SetIndexProvider(provider);
    }

    /**
     * `Using(IAsyncIndexProvider<T>)`: the given store becomes the asynchronous one and the
     * other slot is emptied; a null store, which is not refused, leaves no slot filled.
     */
    method UseAsyncIndexProvider(provider: MemoryIndexProvider?)
      requires Valid()
      modifies indexService`indexProvider, indexService`asyncIndexProvider
      ensures Valid() && indexService.Active() == provider
      ensures indexService.Slot() == if provider == null then NoStore else Asynchronous
    {
      indexService.SetAsyncIndexProvider(provider);
    }

    /** `Using(CsvConfiguration)`: takes the configuration, but always with byte counting on. */
    method UseConfiguration(config: CsvConfiguration)
      requires Valid()
      modifies this`csvConfig
      ensures Valid()
      ensures csvConfig.hasHeaderRecord == config.hasHeaderRecord && csvConfig.countBytes
    {
      csvConfig := config;
      csvConfig := csvConfig.(countBytes := true);
    }

    /** `Using(SortDirection)`. */
    method UseDirection(direction: SortDirection)
      modifies this`sortDirection
      ensures sortDirection == direction
    {
      sortDirection := direction;
    }

    /** `OnIndexCreationStarted` and its three siblings: register the callback for `hook`. */
    method On(hook: Hook)
      modifies this`hooks
      ensures hooks == old(hooks) + {hook}
    {
      hooks := hooks + {hook};
    }

    /** Runs the callback for `hook`, when one is registered. */
    method InvokeHook(hook: Hook)
      modifies this`steps
      ensures steps == old(steps) + Invoke(hooks, hook)
    {
      if hook in hooks {
        steps := steps + [HookInvoked(hook)];
      }
    }

    /**
     * The sorter's line ending, the service's header and the active store are where the scan
     * state `st` puts them, starting from `lineEnding0`, `header0` and `store0`: the line
     * ending is only set when none was known (`??=`), the header is replaced, and entries
     * are appended to the filled slot's store, if any.
     */
    ghost predicate Tracks(st: ScanState, lineEnding0: Option<string>, header0: Option<IndexEntry>, store0: seq<IndexEntry>)
      reads this, indexService, indexService.Active()
      requires Valid()
    {
      && lineEnding == (if lineEnding0.Some? then lineEnding0 else st.lineEnding)
      && indexService.headerIndex == (if st.header.Some? then st.header else header0)
      && indexService.Entries() == Kept(indexService.Slot(), store0, st.added)
    }

    /**
     * The scan's `if (await csv.ReadAsync())` block, for the first record: the check, the
     * line ending if none is known, then the header or the first entry.
     */
    method ReadFirstRecord(p: ScanParams, ghost lineEnding0: Option<string>, ghost header0: Option<IndexEntry>, ghost store0: seq<IndexEntry>)
      returns (failure: Option<SortError>, previousByteCount: nat)
      requires Valid() && reader.source.records != []
      requires p.hasHeaderRecord == csvConfig.hasHeaderRecord && p.selector == selector
      requires Tracks(Scan(reader.source.records, 0, p), lineEnding0, header0, store0)
      modifies this`lineEnding, indexService`headerIndex, indexService.Active()
      ensures Valid() && Tracks(Scan(reader.source.records, 1, p), lineEnding0, header0, store0)
      ensures failure == Scan(reader.source.records, 1, p).failure
      ensures failure.None? ==> previousByteCount == RecordOffset(reader.source.records, p.bomSize, 1)
    {
      var record := reader.source.records[0];
      previousByteCount := p.bomSize;
      if CheckCancelled(p, 0) {
        return Some(OperationCanceled), previousByteCount;
      }
      if lineEnding.None? {
        lineEnding := Some(LineEndingOf(record.rawRecord));
      }
      if csvConfig.hasHeaderRecord {
        indexService.SetHeaderIndex(IndexEntry(None, previousByteCount, |record.rawRecord|));
      } else {
        var key := GetField(record, selector);
        if key.Failure? {
          return Some(key.error), previousByteCount;
        }
        indexService.AddIndex(IndexEntry(key.value, previousByteCount, |record.rawRecord|));
      }
      previousByteCount := (if csvConfig.countBytes then record.byteCount else 0) + p.bomSize;
      failure := None;
    }

    /** One iteration of the scan's `while` loop, for a later record: the check, then the entry. */
    method ReadNextRecord(p: ScanParams, i: nat, previousByteCount: nat, ghost lineEnding0: Option<string>, ghost header0: Option<IndexEntry>, ghost store0: seq<IndexEntry>)
      returns (failure: Option<SortError>, nextByteCount: nat)
      requires Valid() && 1 <= i < |reader.source.records|
      requires p.hasHeaderRecord == csvConfig.hasHeaderRecord && p.selector == selector
      requires Scan(reader.source.records, i, p).failure.None?
      requires previousByteCount == RecordOffset(reader.source.records, p.bomSize, i)
      requires Tracks(Scan(reader.source.records, i, p), lineEnding0, header0, store0)
      modifies indexService.Active()
      ensures Valid() && Tracks(Scan(reader.source.records, i + 1, p), lineEnding0, header0, store0)
      ensures failure == Scan(reader.source.records, i + 1, p).failure
      ensures failure.None? ==> nextByteCount == RecordOffset(reader.source.records, p.bomSize, i + 1)
    {
      var record := reader.source.records[i];
      nextByteCount := previousByteCount;
      if CheckCancelled(p, i) {
        return Some(OperationCanceled), nextByteCount;
      }
      var key := GetField(record, selector);
      if key.Failure? {
        return Some(key.error), nextByteCount;
      }
      indexService.AddIndex(IndexEntry(key.value, previousByteCount, |record.rawRecord|));
      nextByteCount := (if csvConfig.countBytes then record.byteCount else 0) + p.bomSize;
      failure := None;
    }

    /**
     * `CreateIndexAsync`: seek past the BOM and read the records. Before each record the
     * token is checked; the first record sets the line ending if none is known yet and
     * becomes the header when the format has one; every other record (the first one too
     * when there is no header) is added to the active store with its key, the byte count
     * reached before it, and its raw length. The result is the scan of all records.
     */
    method CreateIndex(bomSize: nat, token: CancellationToken) returns (failure: Option<SortError>)
      requires Valid()
      modifies this`lineEnding, indexService`headerIndex, indexService.Active(), reader`position
      ensures Valid()
      ensures var scan := Scan(reader.source.records, |reader.source.records|, ScanParams(bomSize, csvConfig.hasHeaderRecord, selector, token, 0));
              && failure == scan.failure
              && Tracks(scan, old(lineEnding), old(indexService.headerIndex), old(indexService.Entries()))
    {
      reader.Seek(bomSize);
      var records := reader.source.records;
      var p := ScanParams(bomSize, csvConfig.hasHeaderRecord, selector, token, 0);
      ghost var lineEnding0, header0, store0 := lineEnding, indexService.headerIndex, indexService.Entries();
      failure := None;
      if |records| == 0 {
        return;
      }
      var previousByteCount;
      failure, previousByteCount := ReadFirstRecord(p, lineEnding0, header0, store0);
      if failure.Some? {
        ScanFailureSticks(records, 1, |records|, p);
        return;
      }
      var i := 1;
      while i < |records|
        invariant 1 <= i <= |records| && Valid()
        invariant failure.None? && Scan(records, i, p).failure.None?
        invariant previousByteCount == RecordOffset(records, bomSize, i)
        invariant Tracks(Scan(records, i, p), lineEnding0, header0, store0)
      {
        failure, previousByteCount := ReadNextRecord(p, i, previousByteCount, lineEnding0, header0, store0);
        if failure.Some? {
          ScanFailureSticks(records, i + 1, |records|, p);
          return;
        }
        i := i + 1;
      }
    }

    /** Seeks to the entry's offset, reads its length into a fresh buffer and writes the buffer. */
    method CopyRecord(writer: TextWriter, index: IndexEntry) returns (c: string)
      modifies writer`text, reader`position
      ensures c == ReadChars(reader.source.content, index.offset, index.length)
      ensures writer.text == old(writer.text) + c
    {
      reader.Seek(index.offset);
      c := reader.Read(index.length);
      writer.Write(c);
    }

    /**
     * `WriteSortedAsync`: for each element, the enumerator's check (when it has one), then
     * seek to the entry's offset, read its length into a fresh buffer, write the buffer, and
     * write the line ending unless the buffer already ends with it. The result is the replay
     * of all elements, starting at check point `firstCheck`.
     */
    method WriteSorted(writer: TextWriter, ys: seq<Yield>, token: CancellationToken, firstCheck: nat) returns (failure: Option<SortError>)
      modifies writer`text, reader`position
      ensures var replay := Replay(ys, |ys|, reader.source.content, lineEnding, token, firstCheck);
              && failure == replay.failure
              && writer.text == old(writer.text) + replay.output
    {
      var content, le := reader.source.content, lineEnding;
      var checks := firstCheck;
      ghost var text0 := writer.text;
      failure := None;
      for i := 0 to |ys|
        invariant Replay(ys, i, content, le, token, firstCheck).failure.None?
        invariant Replay(ys, i, content, le, token, firstCheck).checks == checks
        invariant writer.text == text0 + Replay(ys, i, content, le, token, firstCheck).output
      {
        var index := ys[i].entry;
        ghost var written := writer.text;
        if ys[i].checked {
          if IsCancellationRequested(token, checks) {
            failure := Some(OperationCanceled);
            ReplayCancelledAt(ys, i, content, le, token, firstCheck);
            return;
          }
          checks := checks + 1;
        }
        ReplayNext(ys, i, content, le, token, firstCheck);
        var c := CopyRecord(writer, index);
        if le.None? {
          failure := Some(NullReference("lineEnding"));
          AppendAssociative(text0, Replay(ys, i, content, le, token, firstCheck).output, c);
          return;
        }
        var currentLineEnding := LastChars(c, |le.value|);
        if le.value != currentLineEnding {
          writer.Write(le.value);
          AppendAssociative(written, c, le.value);
        }
        AppendAssociative(text0, Replay(ys, i, content, le, token, firstCheck).output, Chunk(c, le.value));
      }
    }

    /** The current state as a run outcome with nothing written and no step taken. */
    ghost function State(): RunOutcome
      reads this, indexService, indexService.Active()
      requires Valid()
    {
      RunOutcome([], None, lineEnding, indexService.headerIndex, indexService.Entries(), [])
    }

    /**
     * `ToWriterAsync(writer, token)`: a null writer is refused before anything happens;
     * otherwise the run does what `NextRun` describes, and a completed run leaves the writer
     * flushed and the reader rewound.
     */
    method ToWriter(writer: TextWriter?, token: CancellationToken) returns (failure: Option<SortError>)
      requires Valid()
      modifies this`lineEnding, this`steps, indexService`headerIndex, indexService.Active(), reader`position, writer
      ensures Valid()
      ensures writer == null ==> failure == Some(NullReference("StreamWriter was not set"))
                                 && unchanged(this, indexService, reader)
                                 && (indexService.Active() != null ==> unchanged(indexService.Active()))
      ensures writer != null ==>
                var run := old(NextRun(token));
                && failure == run.failure
                && writer.text == old(writer.text) + run.output
                && lineEnding == run.lineEnding
                && indexService.headerIndex == run.header
                && indexService.Entries() == run.store
                && steps == old(steps) + run.steps
      ensures writer != null && failure.None? ==> writer.flushed == writer.text && reader.position == 0
      ensures writer != null && failure.Some? ==> writer.flushed == old(writer.flushed)
    {
      if writer == null {
        return Some(NullReference("StreamWriter was not set"));
      }
      ghost var steps0 := steps;
      ghost var indexed := IndexingRun(reader.source, csvConfig.hasHeaderRecord, selector, indexService.Slot(), hooks,
                                       lineEnding, indexService.headerIndex, indexService.Entries(), token);
      failure := StartRun(token);
      if failure.Some? {
        return;
      }
      assert State() == indexed.(steps := []);
      SortingRunShift(reader.source, sortDirection, indexService.Slot(), hooks, token, indexed);
      ghost var sorted := SortingRun(reader.source, sortDirection, indexService.Slot(), hooks, token, State());
      failure := FinishRun(writer, token);
      AppendAssociative(steps0, indexed.steps, sorted.steps);
    }

    /**
     * The first half of a run: `GetBomAsync`, the creation-started hook, and
     * `CreateIndexAsync` past the BOM.
     */
    method StartRun(token: CancellationToken) returns (failure: Option<SortError>)
      requires Valid()
      modifies this`lineEnding, this`steps, indexService`headerIndex, indexService.Active(), reader`position
      ensures Valid()
      ensures var r := old(IndexingRun(reader.source, csvConfig.hasHeaderRecord, selector, indexService.Slot(), hooks,
                                       lineEnding, indexService.headerIndex, indexService.Entries(), token));
              && failure == r.failure
              && lineEnding == r.lineEnding
              && indexService.headerIndex == r.header
              && indexService.Entries() == r.store
              && steps == old(steps) + r.steps
    {
      var bom := reader.GetBom();
      steps := steps + [BomRead];
      InvokeHook(IndexCreationStarted);
      failure := CreateIndex(BomSize(bom), token);
      AppendAssociative(old(steps), [BomRead], Invoke(hooks, IndexCreationStarted));
    }

    /**
     * The second half of a run: the two hooks, `GetSorted`, `WriteSortedAsync` with check
     * points numbered after the scan's, then, when the replay completed, `ClearAsync`,
     * `FlushAsync`, `SeekReader(0)` and the finished hook.
     */
    method FinishRun(writer: TextWriter, token: CancellationToken) returns (failure: Option<SortError>)
      requires Valid()
      modifies this`steps, indexService.Active(), reader`position, writer
      ensures Valid()
      ensures var r := old(SortingRun(reader.source, sortDirection, indexService.Slot(), hooks, token, State()));
              && failure == r.failure
              && writer.text == old(writer.text) + r.output
              && indexService.Entries() == r.store
              && steps == old(steps) + r.steps
      ensures failure.None? ==> writer.flushed == writer.text && reader.position == 0
      ensures failure.Some? ==> writer.flushed == old(writer.flushed)
    {
      ghost var steps0 := steps;
      ghost var ys := Yields(indexService.headerIndex, OrderBy(indexService.Entries(), sortDirection), indexService.Slot() == Synchronous);
      ghost var replay := Replay(ys, |ys|, reader.source.content, lineEnding, token, |reader.source.records|);
      ghost var r := SortingRun(reader.source, sortDirection, indexService.Slot(), hooks, token, State());
      assert [] + replay.output == replay.output;
      assert r.output == replay.output && r.failure == replay.failure && r.steps == [] + SortingSteps(hooks, replay.failure.None?);
      assert r.steps == SortingSteps(hooks, replay.failure.None?);
      steps := steps + [IndexCreated];
      InvokeHook(IndexCreationFinished);
      InvokeHook(SortingStarted);
      ghost var sorting := [IndexCreated] + Invoke(hooks, IndexCreationFinished) + Invoke(hooks, SortingStarted);
      assert steps == steps0 + sorting;
      var sortedIndexes := indexService.GetSorted(sortDirection);
      failure := WriteSorted(writer, sortedIndexes, token, |reader.source.records|);
      assert failure == replay.failure && writer.text == old(writer.text) + replay.output;
      if failure.Some? {
        assert sorting == SortingSteps(hooks, false);
        return;
      }
      steps := steps + [SortedWritten];
      Finish(writer);
      AppendAssociative(steps0 + sorting, [SortedWritten], Finishing(hooks));
      AppendAssociative(steps0, sorting, [SortedWritten] + Finishing(hooks));
    }

    /**
     * The end of a run whose replay completed: `ClearAsync` on the service, `FlushAsync` on
     * the writer, `SeekReader(0)`, and the finished hook.
     */
    method Finish(writer: TextWriter)
      requires Valid()
      modifies this`steps, indexService.Active(), writer`flushed, reader`position
      ensures indexService.Entries() == [] && writer.flushed == writer.text && reader.position == 0
      ensures steps == old(steps) + Finishing(hooks)
    {
      ghost var steps0 := steps;
      indexService.Clear();
      steps := steps + [StoreCleared];
      writer.Flush();
      steps := steps + [WriterFlushed];
      reader.Seek(0);
      steps := steps + [ReaderRewound];
      InvokeHook(SortingFinished);
      assert steps == steps0 + [StoreCleared] + [WriterFlushed] + [ReaderRewound] + Invoke(hooks, SortingFinished);
    }
  }
}
