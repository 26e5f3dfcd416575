# CsvSorter index-build-and-replay core in Dafny

CsvSorter sorts CSV text by one field without keeping the parsed rows in memory. A run of
`ToWriterAsync` works in these steps:

1. It decides whether the stream starts with a byte-order mark (BOM).
2. It scans the records once. For each data record it stores an index entry: a key, the
   offset where the record starts, and the length of its raw text.
3. It orders those entries with a null-aware comparer and LINQ's stable `OrderBy`.
4. It copies each record's raw text back out in the new order. A record that does not end
   with the canonical line ending, taken from the first record, gets one appended.

This project models that core and proves properties of the model. The modules follow the
source:

- `Entities`: the index entry `CsvSorterIndex<T>` with key type `int` (a `None` key is a
  null key), the sort direction, the exceptions, and the cancellation token.
- `Ordering`: the two comparers of `MemoryIndexProvider.GetSorted` and the stable
  `OrderBy`, given as a stable insertion sort. `StableOrderOf` is an independent
  description of a stable sort, and a lemma shows the two agree.
- `Providers`: `MemoryIndexProvider`, a class over the mutable `indexes` list.
- `Services`: `IndexService`, a class with the two provider slots and the header entry.
  The setters accept a null store, which leaves neither slot filled: the scan's entries
  are then dropped and a run writes the header alone.
  Its lazy enumerator is modelled as the finite sequence of the elements it yields. Each
  element says whether a cancellation check runs before it.
- `Scanning`: the scan of `CreateIndexAsync` as functions over the records the CSV parser
  reports: the offsets, the header, the canonical line ending, and where the scan stops.
- `Replaying`: the replay of `WriteSortedAsync` as functions: read a buffer, write it, and
  add the line ending when the buffer does not end with it.
- `Sorter`: the `CsvSorter` class with its builder methods, its `CreateIndex` and
  `WriteSorted` loops, and `ToWriter`. `ToWriter` is proved against `Run`, a function
  describing one whole run: its output, exception, final state and step sequence.
- `Properties`: lemmas about whole runs over sources whose records tile the stream.
- `Scenario`: one run worked through on a concrete four-record source.

**Single-byte encoding.** The source mixes two units. `Offset` counts bytes: it is the
parser's `ByteCount` plus the BOM size. `Length` counts characters: it is
`RawRecord.Length`, and the replay reads that many characters. The model assumes a
single-byte encoding, so that the two units agree. The stream is a `string` with one unit
per byte, and the BOM, when present, fills its first units.

**Cancellation.** A token is modelled by the first check point at which it reads as
cancelled. Check points are numbered in the order a run reaches them: one per record in
the scan, then one for the header and one for each element of the synchronous store in the
replay. Elements of the asynchronous store are not checked by the enumerator, because that
store receives the token itself.

**Behaviours of the code worth noting:**

- The replay reads `Length` characters, not bytes.
- A source with no records completes even with a token cancelled in advance, because no
  check point is ever reached (`Properties.EmptySourceCompletes`).
- `ClearAsync` empties the store but keeps the header entry, and the line ending is only
  set when none is known (`??=`). Both carry over to the next run on the same sorter,
  which therefore repeats the first run exactly (`Properties.RunIsRepeatable`).

**Reuse after a failure.** When a run fails after its scan, for example because it is
cancelled during the replay, the store is not emptied. A later run on the same sorter then
appends the same entries a second time (`Properties.FailedReplayKeepsEntries`).

## Model

| member | source | states |
|---|---|---|
| Ordering.CompareTo | CsvSorter/Providers/MemoryIndexProvider.cs:18 | `int.CompareTo` is negative, zero or positive exactly when x is below, equal to or above y |
| Ordering.AscendingCompare | CsvSorter/Providers/MemoryIndexProvider.cs:15-19 | the ascending comparer: null below every key, then `x.CompareTo(y)` |
| Ordering.DescendingCompare | CsvSorter/Providers/MemoryIndexProvider.cs:20-24 | the descending comparer: null above every key, then `y.CompareTo(x)` |
| Ordering.Compare | CsvSorter/Providers/MemoryIndexProvider.cs:14-24 | the comparer chosen by the direction |
| Ordering.Insert | CsvSorter/Providers/MemoryIndexProvider.cs:26 | places an entry after every entry whose key does not exceed its own (the step of the stable sort) |
| Ordering.OrderBy | CsvSorter/Providers/MemoryIndexProvider.cs:26 | LINQ's stable `OrderBy` by key, as an insertion sort; its properties are the lemmas below |
| Ordering.DescendingIsSwappedAscending | CsvSorter/Providers/MemoryIndexProvider.cs:14-24 | the descending comparer is the ascending one with its arguments swapped, for all keys including null |
| Ordering.NullKeyPlacement | CsvSorter/Providers/MemoryIndexProvider.cs:14-24 | a null key is below every present key ascending and above it descending; two nulls compare equal |
| Ordering.CompareAntisymmetric | CsvSorter/Providers/MemoryIndexProvider.cs:14-24 | each comparer is antisymmetric and returns 0 exactly for equal keys |
| Ordering.CompareTransitive | CsvSorter/Providers/MemoryIndexProvider.cs:14-24 | each comparer is transitive, with a strict result when either step is strict |
| Ordering.OrderByPermutation | CsvSorter/Providers/MemoryIndexProvider.cs:26 | the ordered entries are a permutation of the stored ones |
| Ordering.OrderBySorted | CsvSorter/Providers/MemoryIndexProvider.cs:26 | the ordered entries are sorted under the comparer of the direction |
| Ordering.OrderByStable | CsvSorter/Providers/MemoryIndexProvider.cs:26 | entries with the same key keep their insertion order |
| Ordering.OrderByIsTheStableOrder | CsvSorter/Providers/MemoryIndexProvider.cs:12-28 | an arrangement is sorted with every key's entries in insertion order if and only if it is the `OrderBy` result |
| Ordering.ReorderIsOrder | CsvSorter/Providers/MemoryIndexProvider.cs:26 | ordering already ordered entries gives what ordering the original entries gives: only the last direction counts |
| Ordering.SortedKeys | CsvSorter/Providers/MemoryIndexProvider.cs:14-26 | sorted output is non-decreasing ascending with nulls first, and non-increasing descending with nulls last |
| Ordering.InsertionExample | CsvSorter.Tests/IndexProviderTests.cs:12-25 | keys 2, 3, 1 come out as 1, 2, 3 ascending and 3, 2, 1 descending |
| Providers.MemoryIndexProvider.constructor | CsvSorter/Providers/MemoryIndexProvider.cs:5 | a new store is empty |
| Providers.MemoryIndexProvider.Add | CsvSorter/Providers/MemoryIndexProvider.cs:7-10 | the record is appended; earlier entries are unchanged |
| Providers.MemoryIndexProvider.GetSorted | CsvSorter/Providers/MemoryIndexProvider.cs:12-28 | returns the `OrderBy` of the entries: a permutation of them, sorted, and stable per key; the store is not modified |
| Providers.MemoryIndexProvider.Clear | CsvSorter/Providers/MemoryIndexProvider.cs:30-33 | the store is empty, so `GetSorted` then returns nothing in either direction |
| Services.Yields | CsvSorter/Services/IndexService.cs:46-70 | the entries yielded are the header (if set) followed by the sorted entries; the header is checked; the other elements are checked exactly when the store is synchronous |
| Services.Tagged | CsvSorter/Services/IndexService.cs:62-68 | the store's elements, each marked with whether a check runs before it |
| Services.Kept | CsvSorter/Services/IndexService.cs:34-39 | appending to a store keeps the new entries after the old ones; with no slot filled they are dropped |
| Services.IndexService.Valid | CsvSorter/Services/IndexService.cs:17-32 | at most one of the two store slots is filled, as the constructors and setters keep it (a null store leaves neither) |
| Services.IndexService.Active | CsvSorter/Services/IndexService.cs:36-38 | the store in whichever slot is filled, or null exactly when neither is |
| Services.IndexService.Slot | CsvSorter/Services/IndexService.cs:57-69 | which slot is filled: synchronous exactly when `_indexProvider` is set, none exactly when both are null |
| Services.IndexService.Entries | CsvSorter/Services/IndexService.cs:57-69 | the filled slot's entries, or none when no slot is filled |
| Services.IndexService.constructor | CsvSorter/Services/IndexService.cs:7-10 | the synchronous slot holds the store, the other slot is empty, and no header is set |
| Services.IndexService.WithAsyncProvider | CsvSorter/Services/IndexService.cs:12-15 | the asynchronous slot holds the store, the other slot is empty, and no header is set |
| Services.IndexService.SetAsyncIndexProvider | CsvSorter/Services/IndexService.cs:22-26 | the asynchronous slot holds the given store, null included, and the synchronous slot is emptied; a null store leaves no slot filled |
| Services.IndexService.SetIndexProvider | CsvSorter/Services/IndexService.cs:28-32 | the synchronous slot holds the given store, null included, and the asynchronous slot is emptied; a null store leaves no slot filled |
| Services.IndexService.AddIndex | CsvSorter/Services/IndexService.cs:34-39 | the entry is appended to the filled slot's store and to nothing else; with no slot filled it is dropped |
| Services.IndexService.SetHeaderIndex | CsvSorter/Services/IndexService.cs:41-44 | the header is replaced; no store is touched |
| Services.IndexService.GetSorted | CsvSorter/Services/IndexService.cs:46-70 | yields the header first when one is set, then the filled slot's sorted entries in that store's order (none without a store), with a check before the header and before each synchronous element |
| Services.IndexService.Clear | CsvSorter/Services/IndexService.cs:72-77 | the filled slot's store is emptied (nothing happens without one) and the header survives |
| Scanning.SelectedField | CsvSorter/CsvSorter.cs:188-190 | the field `GetField(name)` or `GetField(index)` reads: present when the header has the name, or the index is within the record |
| Scanning.GetField | CsvSorter/CsvSorter.cs:188-190 | succeeds exactly when the selected field exists and converts, with that field's key; a missing field by name or by index, or a field that cannot be converted, is the parser's exception |
| Scanning.EndAnchor | CsvSorter/CsvSorter.cs:196 | .NET's `$`: the end of the record, or just before a final '\n' |
| Scanning.MatchAt | CsvSorter/CsvSorter.cs:196 | the first alternative of `\r\n\|\r\|\n` that matches at a position and is followed by `$` |
| Scanning.FirstMatchFrom | CsvSorter/CsvSorter.cs:196 | the leftmost match at or after a position |
| Scanning.LineEndingOf | CsvSorter/CsvSorter.cs:196 | the regex's matched text, or "" when it does not match |
| Scanning.TerminatorSuffix | CsvSorter/CsvSorter.cs:196 | the record ends with the terminator returned |
| Scanning.LineEndingOfRecord | CsvSorter/CsvSorter.cs:196 | the regex match is the record's `\r\n`, `\r` or `\n` suffix, or "" when it has none; a record ending in `\r\n\n` gives `\r\n` |
| Scanning.RecordOffset | CsvSorter/CsvSorter.cs:186-219 | `previousByteCount` when record i is read: the BOM size, then the previous record's byte count plus the BOM size |
| Scanning.EntryAt | CsvSorter/CsvSorter.cs:224-229 | `GetIndexFromRecord`: the key, the running offset and the raw length, or the parser's exception |
| Scanning.HeaderEntry | CsvSorter/CsvSorter.cs:201-205 | the header entry: offset the BOM size, length the first record's raw length |
| Scanning.ScanStep | CsvSorter/CsvSorter.cs:192-220 | one record of the scan: the check, the line ending for the first record, then the header or an entry |
| Scanning.Scan | CsvSorter/CsvSorter.cs:186-220 | the scan of the first k records, stopping at the first exception |
| Scanning.ScanCompletes | CsvSorter/CsvSorter.cs:192-220 | the scan completes if and only if no check point reads the token as cancelled and every data record's key can be read |
| Scanning.ScanEntries | CsvSorter/CsvSorter.cs:186-229 | after a completed scan, the first record is the header when the format has one; each other record becomes, in order, an entry with its key, the BOM size plus the previous record's byte count, and its raw length; the line ending is the first record's |
| Scanning.ScanFailureSticks | CsvSorter/CsvSorter.cs:215-220 | once the scan has thrown, later records change nothing |
| Scanning.ScanCancelledInAdvance | CsvSorter/CsvSorter.cs:192-194 | a token cancelled in advance stops a non-empty scan at the first record, before any line ending, header or entry is recorded |
| Replaying.LastChars | CsvSorter/CsvSorter.cs:170 | `c.Reverse().Take(n).Reverse()`: the last n characters, or all of them if fewer |
| Replaying.Chunk | CsvSorter/CsvSorter.cs:168-172 | what is written for a buffer: the buffer, then the line ending when its last characters differ from it |
| Replaying.EntryChunk | CsvSorter/CsvSorter.cs:163-172 | the chunk written for one entry |
| Replaying.ReplayText | CsvSorter/CsvSorter.cs:159-174 | the chunks of a sequence of entries, one after the other |
| Replaying.ReplayStep | CsvSorter/CsvSorter.cs:161-172 | one element of the replay: the enumerator's check, the buffer, and the line ending (a null reference when none was found) |
| Replaying.Replay | CsvSorter/CsvSorter.cs:159-174 | the replay of the first k elements, stopping at the first exception |
| Replaying.ReadChars | CsvSorter/CsvSorter.cs:165-166 | the buffer has the requested length and holds the stream's units when they lie inside the stream |
| Replaying.ReadPastEnd | CsvSorter/CsvSorter.cs:165-166 | buffer positions past the end of the stream keep their initial '\0' |
| Replaying.ChunkEndsWithLineEnding | CsvSorter/CsvSorter.cs:168-172 | what is written for a buffer starts with the buffer and ends with the line ending; it is the buffer alone exactly when the buffer already ends with the line ending, and always when the line ending is empty |
| Replaying.ChunkLength | CsvSorter/CsvSorter.cs:168-172 | a chunk adds the line ending's length exactly when the buffer does not end with it |
| Replaying.ReplayWrites | CsvSorter/CsvSorter.cs:159-174 | with a line ending known and no cancellation, the replay completes and writes the entries' chunks in order |
| Replaying.ReplayCancelledAt | CsvSorter/Services/IndexService.cs:66 | a checked element whose check reads the token as cancelled ends the replay with the text written so far |
| Replaying.ReplayNext | CsvSorter/CsvSorter.cs:163-172 | an element that passes its check writes its chunk; without a line ending the buffer is written and the replay ends with a null reference |
| Replaying.ReplayFailureSticks | CsvSorter/CsvSorter.cs:161-173 | once the replay has thrown, later elements change nothing |
| Replaying.ReplayCancelledAtStart | CsvSorter/Services/IndexService.cs:51-55 | a cancelled token stops the replay before the header is written |
| Entities.IsCancellationRequested | CsvSorter/CsvSorter.cs:192-194 | `ThrowIfCancellationRequested` throws at a check point exactly when the token reads as cancelled there, which it does from its cancellation point on |
| Sorter.DefaultConfiguration | CsvSorter/CsvSorter.cs:18 | the sorter's initial configuration: a header record is expected, and bytes are counted |
| Sorter.SelectorOf | CsvSorter/CsvSorter.cs:32-48 | the field the constructor records: `_fieldName` when a name was given, `_fieldIndex` otherwise |
| Sorter.Invoke | CsvSorter/CsvSorter.cs:123-140 | `_onX?.Invoke()`: the hook's step when a callback is registered, nothing otherwise |
| Sorter.IsWhiteSpace | CsvSorter/CsvSorter.cs:34 | `char.IsWhiteSpace` |
| Sorter.IsNullOrWhiteSpace | CsvSorter/CsvSorter.cs:34 | `string.IsNullOrWhiteSpace` |
| Sorter.ConstructionError | CsvSorter/CsvSorter.cs:27-48 | construction fails exactly when the reader is null, the field name is null, empty or white space, or the field index is negative, and the exception is always `ArgumentNullException` |
| Sorter.ConstructionCases | CsvSorter.Tests/CsvSorterTests.cs:180-201 | a null reader, an empty, null or blank name and index -1 are rejected; index 0 and a non-blank name are accepted |
| Sorter.Bom | CsvSorter/CsvSorter.cs:237-245 | the BOM is the preamble exactly when the first character's encoding equals it, and null otherwise |
| Sorter.BomSize | CsvSorter/CsvSorter.cs:178 | the scan skips the BOM's length, or nothing when there is no BOM |
| Sorter.IndexingRun | CsvSorter/CsvSorter.cs:121-125 | the first half of a run: the BOM, the started hook and the scan, which sets the line ending only if none is known, replaces the header and appends to the store, if one is set |
| Sorter.SortingRun | CsvSorter/CsvSorter.cs:127-140 | the second half: the two hooks, the replay of the service's order, then on completion the clear, flush, rewind and finished hook |
| Sorter.Run | CsvSorter/CsvSorter.cs:113-141 | one run of `ToWriterAsync`: the second half only when the first completed |
| Sorter.SortingRunShift | CsvSorter/CsvSorter.cs:127-140 | the second half of a run adds its text and steps to those already there |
| Sorter.StreamReader.Seek | CsvSorter/CsvSorter.cs:248-252 | the position becomes the offset |
| Sorter.StreamReader.Read | CsvSorter/CsvSorter.cs:165-166 | the buffer read from the position, '\0'-padded past the end, and the position moved past the units read |
| Sorter.StreamReader.GetBom | CsvSorter/CsvSorter.cs:232-246 | returns the BOM decision for the stream's preamble and first character, leaving the reader after that character |
| Sorter.TextWriter.Write | CsvSorter/CsvSorter.cs:168 | the text is appended |
| Sorter.TextWriter.Flush | CsvSorter/CsvSorter.cs:137 | everything written is flushed |
| Sorter.CsvSorter.Valid | CsvSorter/CsvSorter.cs:64-69 | the sorter's invariant: at most one store slot is filled, and the parser counts bytes (`Using(config)` forces `CountBytes = true`) |
| Sorter.CsvSorter.constructor | CsvSorter/CsvSorter.cs:15-25 | a fresh synchronous store, no line ending, the default configuration, ascending order and no hooks |
| Sorter.CsvSorter.Create | CsvSorter/CsvSorter.cs:15-48 | the constructor's exception, or a fresh sorter over the reader that sorts by the given field: an empty synchronous store, no header, no line ending, the default configuration, ascending order, no hooks |
| Sorter.CsvSorter.UseIndexProvider | CsvSorter/CsvSorter.cs:52-56 | the given store, null included, fills the synchronous slot and the other slot is emptied; null leaves no slot filled |
| Sorter.CsvSorter.UseAsyncIndexProvider | CsvSorter/CsvSorter.cs:58-62 | the given store, null included, fills the asynchronous slot and the other slot is emptied; null leaves no slot filled |
| Sorter.CsvSorter.UseConfiguration | CsvSorter/CsvSorter.cs:64-69 | the configuration is taken, with byte counting always on |
| Sorter.CsvSorter.UseDirection | CsvSorter/CsvSorter.cs:77-81 | the sort direction is set |
| Sorter.CsvSorter.On | CsvSorter/CsvSorter.cs:87-109 | the hook is registered |
| Sorter.CsvSorter.InvokeHook | CsvSorter/CsvSorter.cs:123 | the hook's step is logged when it is registered |
| Sorter.CsvSorter.ReadFirstRecord | CsvSorter/CsvSorter.cs:192-213 | the first record's check, its line ending if none is known, and the header or the first entry, as in the scan of one record |
| Sorter.CsvSorter.ReadNextRecord | CsvSorter/CsvSorter.cs:215-220 | one iteration of the `while` loop, as in the scan of one more record, with the byte count moved past it |
| Sorter.CsvSorter.CreateIndex | CsvSorter/CsvSorter.cs:176-230 | the result is the scan of all records; the line ending is set only when none was known, the header is replaced, and the entries are appended to the active store |
| Sorter.CsvSorter.CopyRecord | CsvSorter/CsvSorter.cs:163-168 | the buffer read at the entry's offset is written |
| Sorter.CsvSorter.WriteSorted | CsvSorter/CsvSorter.cs:159-174 | the writer receives the replay's output and the method ends with the replay's exception |
| Sorter.CsvSorter.ToWriter | CsvSorter/CsvSorter.cs:113-141 | a null writer is refused with nothing changed; otherwise the output, exception, line ending, header, store and step sequence are those of `Run`; a completed run leaves the writer flushed and the reader rewound, a failed one leaves the flushed text as it was |
| Sorter.CsvSorter.StartRun | CsvSorter/CsvSorter.cs:121-125 | the BOM is read, the started hook runs, and the scan's state is recorded |
| Sorter.CsvSorter.FinishRun | CsvSorter/CsvSorter.cs:127-140 | the two hooks, the replay of the service's order, then on completion the clear, flush, rewind and finished hook |
| Sorter.CsvSorter.Finish | CsvSorter/CsvSorter.cs:135-140 | the store is emptied, the writer flushed, the reader rewound and the finished hook run, in that order |
| Properties.ReadBack | CsvSorter/CsvSorter.cs:186-229 | in a source whose records tile the stream, record i's offset is the BOM size plus the length of the records before it, and reading its raw length there gives back its raw text |
| Properties.ScannedEntriesReadBack | CsvSorter/CsvSorter.cs:215-229 | after a completed scan, the j-th stored entry carries the key of data record j and reads back that record's raw text |
| Properties.CompletedScan | CsvSorter/CsvSorter.cs:192-220 | a scan that is never cancelled and can read every key completes, finds the first record's line ending, sets the header when the format has one, and stores one entry per other record |
| Properties.CompletedReplay | CsvSorter/CsvSorter.cs:159-174 | replaying the header and the sorted entries without cancellation writes their chunks in that order |
| Properties.HeaderReplay | CsvSorter/CsvSorter.cs:198-205 | the header entry replays as the first record's chunk |
| Properties.CompletedRun | CsvSorter/CsvSorter.cs:113-141 | a run with a store that is never cancelled and can read every key completes: the output is the header's chunk followed by the data records' chunks in the stable key order, the store is emptied, and the ten steps run in order |
| Properties.ScannedTextLength | CsvSorter/CsvSorter.cs:159-174 | the header's chunk and the data chunks, in key order, are as long as all records' chunks |
| Properties.RunWithoutStoreWritesHeaderOnly | CsvSorter/Services/IndexService.cs:34-77 | with no store set, a run that is never cancelled and can read every key completes but writes only the header's chunk |
| Properties.CompletedRunLength | CsvSorter/CsvSorter.cs:159-174 | the output of a completed run is as long as all records with the line ending added where it is missing |
| Properties.CompletedRunWritesEachRecordOnce | CsvSorter/CsvSorter.cs:113-141 | the output of a completed run is the header's chunk followed by the data records' chunks, each exactly once, in some order (a rearrangement of the records' chunks) |
| Properties.DataChunks | CsvSorter/CsvSorter.cs:159-174 | the chunks of the scanned entries in key order are the data records' chunks rearranged |
| Properties.SortedDataChunks | CsvSorter/CsvSorter.cs:163-172 | entries that read back records h onwards, ordered by key, have those records' chunks as a rearrangement |
| Properties.OrderByImages | CsvSorter/Providers/MemoryIndexProvider.cs:26 | ordering the entries rearranges whatever is computed from each of them (here: its chunk) |
| Properties.ReplayTextIsConcat | CsvSorter/CsvSorter.cs:159-174 | the replayed text is the entries' chunks one after the other |
| Properties.UniformTerminatorsKeepLength | CsvSorter.Tests/CsvSorterTests.cs:34-55 | when every record ends with the line ending, the output is as long as the stream after its BOM |
| Properties.UnterminatedLastRecordGainsLineEnding | CsvSorter/CsvSorter.cs:170-172 | when only the last record lacks the line ending, the output is longer than the stream after its BOM by one line ending |
| Properties.RunCancelledInAdvance | CsvSorter.Tests/CsvSorterTests.cs:159-178 | a token cancelled in advance makes a non-empty run throw `OperationCanceledException`, with nothing written and the sorter's state untouched |
| Properties.EmptySourceCompletes | CsvSorter/CsvSorter.cs:192-220 | a source with no records completes with nothing written, whatever the token |
| Properties.RunIsRepeatable | CsvSorter/CsvSorter.cs:196 | after a completed run, the same run from the state it left does exactly the same again, because the line ending is kept (`??=`) and the store was emptied |
| Properties.ScanAddedIgnoresToken | CsvSorter/CsvSorter.cs:215-220 | two completed scans of the same records add the same entries, whatever their tokens |
| Properties.FailedReplayKeepsEntries | CsvSorter/CsvSorter.cs:131-135 | when the replay fails, the store keeps the scanned entries, and the next scan appends them a second time |
| Scenario.ExampleRun | CsvSorter.Tests/CsvSorterTests.cs:125-157 | sorting the rows with keys 3, 1, 2 by field 0 writes the header, then the rows with keys 1, 2 and 3 ascending, or 3, 2 and 1 descending, and empties the store |

## Left out

- The CSV parser (`CsvReader`, `Parser.RawRecord`, `Parser.ByteCount`, `GetField<T>`) is a
  foreign library. The model takes the records it reports as input: raw text, cumulative
  byte count, and fields by name and by position. A missing field or a failed conversion is
  one abstract exception.
- `Using(TypeConverterOptions)` and the type-converter cache only change how the parser
  converts a field, so they are not modelled. Keys are `int`; generic `IComparable<T>` and
  `DateTime` conversion are out.
- Stream and encoding mechanics (`DiscardBufferedData`, `GetPreamble`, `GetBytes`, the
  reader's buffering) are I/O. The stream is a string of single-byte units, and the BOM
  decision gets the preamble and the first character's encoding as inputs.
- Multi-byte encodings are not modelled: the offset (bytes) and the length (characters)
  are treated as the same unit.
- `async`, `Task` and `IAsyncEnumerable` are modelled as sequential code. The enumerator
  is a materialised sequence whose elements say whether a check runs before them.
- A cancellation token is a fixed schedule of check points. The asynchronous store's own
  use of the token is not modelled, because no asynchronous store exists in the repository;
  both slots hold a `MemoryIndexProvider`.
- Custom stores other than `MemoryIndexProvider` are not modelled.
- `ToWriter`, `ToFile`, `ToFileAsync` and `StreamReaderExtension` only forward to
  `ToWriterAsync` or open files, so they are not modelled.
- `CsvSorter/Providers/IIndexProvider.cs` is a stale duplicate of the store interface and
  is not part of this model.
- The hooks are modelled as a set of registered hooks and a log of the steps a run takes,
  not as callbacks. A callback that throws is not modelled.
- The `_reader == null` check in `ToWriterAsync` cannot fail after a successful
  construction, so only the null-writer check is modelled.
- `Offset` (`long`) and `Length` (`int`) are unbounded naturals: overflow for sources
  larger than 2 GB is not modelled.
- Sorter.CsvSorter.UseConfiguration: the source keeps the caller's `CsvConfiguration`
  object, so a caller who later sets `CountBytes = false` on it turns every offset into
  the BOM size, and a null configuration makes `Using` itself throw a null reference. The
  model copies the configuration's value and keeps byte counting on as an invariant, so
  it covers neither the shared object nor the null argument.
- Scanning.HeaderEntry: the header entry's key is `default(T)` in the source and `None` in
  the model; the header is never compared, so nothing depends on it.
- Properties.CompletedRun and the other whole-run lemmas assume that the records tile the
  stream after the BOM (`WellFormed`): a single-byte encoding, and no blank or comment
  lines that the parser skips. A stream with skipped lines is not covered by them. They
  also start from a fresh sorter, and those about every record being written need a store
  set; with none, `Properties.RunWithoutStoreWritesHeaderOnly` applies.
