/**
 * A worked run: a source with the header `a,b,c` and the rows `3,x,P`, `1,y,Q`, `2,z,R`,
 * sorted by the first field, comes out as the header followed by the rows with keys 1, 2
 * and 3 ascending, and 3, 2 and 1 descending.
 */
module Scenario {
  import opened Wrappers
  import opened Entities
  import opened Ordering
  import opened Services
  import opened Scanning
  import opened Replaying
  import opened Sorter
  import opened Properties

  const Header: string := "a,b,c\n"
  const Row3: string := "3,x,P\n"
  const Row1: string := "1,y,Q\n"
  const Row2: string := "2,z,R\n"

  function Row(raw: string, byteCount: nat, key: int): ParsedRecord {
    ParsedRecord(raw, byteCount, map[], [Converted(Some(key))])
  }

  /** The parsed records of the example, byte counts running from the start of the text. */
  function Records(): seq<ParsedRecord> {
    [ParsedRecord(Header, 6, map[], []), Row(Row3, 12, 3), Row(Row1, 18, 1), Row(Row2, 24, 2)]
  }

  /** The example stream: no preamble, so no BOM; its first character is 'a'. */
  function Example(): Source {
    Source(Header + Row3 + Row1 + Row2, [], [97], Records())
  }

  const Token := CancellationToken(None)

  lemma ExampleWellFormed()
    ensures WellFormed(Example()) && SourceBomSize(Example()) == 0
  {
    var rs := Records();
    assert Flatten(rs, 1) == Header;
    assert Flatten(rs, 2) == Header + Row3;
    assert Flatten(rs, 3) == Header + Row3 + Row1;
    assert Flatten(rs, 4) == Header + Row3 + Row1 + Row2;
  }

  /** The header ends with "\n", which becomes the line ending. */
  lemma ExampleLineEnding()
    ensures LineEndingOf(Header) == "\n"
  {
    LineEndingOfRecord(Header);
    assert !EndsWith(Header, "\r\n\n") && !EndsWith(Header, "\r\n") && !EndsWith(Header, "\r");
    assert Header[5..] == "\n";
  }

  /** Every row's first field converts to its key; the header's is never read. */
  lemma ExampleKeysReadable()
    ensures AllKeysReadable(Example(), true, FieldIndex(0), Token)
  {
    var p := ParamsOf(Example(), true, FieldIndex(0), Token);
    forall i | 0 <= i < 4 ensures KeyReadable(Records(), i, p) {
      if i > 0 {
        assert Records()[i].byIndex != [] && Records()[i].byIndex[0].Converted?;
      }
    }
  }

  /** The entries the scan adds: one per row, at offsets 6, 12 and 18, six units long. */
  lemma ExampleEntries()
    ensures var p := ParamsOf(Example(), true, FieldIndex(0), Token);
            var scan := Scan(Records(), 4, p);
            && scan.failure.None?
            && scan.added == [IndexEntry(Some(3), 6, 6), IndexEntry(Some(1), 12, 6), IndexEntry(Some(2), 18, 6)]
  {
    var s := Example();
    var p := ParamsOf(s, true, FieldIndex(0), Token);
    ExampleKeysReadable();
    CompletedScan(s, true, FieldIndex(0), Token);
    ScanEntries(Records(), 4, p);
    var added := Scan(Records(), 4, p).added;
    assert Records()[..4] == Records();
    assert |added| == 3;
    assert EntryAt(Records(), 1, p) == Success(IndexEntry(Some(3), 6, 6));
    assert EntryAt(Records(), 2, p) == Success(IndexEntry(Some(1), 12, 6));
    assert EntryAt(Records(), 3, p) == Success(IndexEntry(Some(2), 18, 6));
  }

  /** Ascending by key, the entries with keys 3, 1, 2 come out as 1, 2, 3. */
  lemma ExampleOrder()
    ensures var e3, e1, e2 := IndexEntry(Some(3), 6, 6), IndexEntry(Some(1), 12, 6), IndexEntry(Some(2), 18, 6);
            OrderBy([e3, e1, e2], Ascending) == [e1, e2, e3]
  {
    var e3, e1, e2 := IndexEntry(Some(3), 6, 6), IndexEntry(Some(1), 12, 6), IndexEntry(Some(2), 18, 6);
    var s := [e3, e1, e2];
    assert s[..2] == [e3, e1] && s[..2][..1] == [e3] && [e3][..0] == [];
    assert OrderBy([e3], Ascending) == Insert(e3, [], Ascending) == [e3];
    assert OrderBy([e3, e1], Ascending) == Insert(e1, [e3], Ascending) == [e1, e3];
    assert [e1, e3][1..] == [e3] && [e3][1..] == [];
    assert Insert(e2, [e3], Ascending) == [e2, e3];
    assert OrderBy(s, Ascending) == Insert(e2, [e1, e3], Ascending) == [e1] + [e2, e3];
  }

  /** Descending by key, the entries with keys 3, 1, 2 come out as 3, 2, 1. */
  lemma ExampleDescendingOrder()
    ensures var e3, e1, e2 := IndexEntry(Some(3), 6, 6), IndexEntry(Some(1), 12, 6), IndexEntry(Some(2), 18, 6);
            OrderBy([e3, e1, e2], Descending) == [e3, e2, e1]
  {
    var e3, e1, e2 := IndexEntry(Some(3), 6, 6), IndexEntry(Some(1), 12, 6), IndexEntry(Some(2), 18, 6);
    var s := [e3, e1, e2];
    assert s[..2] == [e3, e1] && s[..2][..1] == [e3] && [e3][..0] == [];
    assert OrderBy([e3], Descending) == Insert(e3, [], Descending) == [e3];
    assert [e3][1..] == [];
    assert OrderBy([e3, e1], Descending) == Insert(e1, [e3], Descending) == [e3, e1];
    assert [e3, e1][1..] == [e1];
    assert Insert(e2, [e1], Descending) == [e2, e1];
    assert OrderBy(s, Descending) == Insert(e2, [e3, e1], Descending) == [e3] + [e2, e1];
  }

  /** Each row reads back from its offset and already ends with the line ending. */
  lemma ExampleChunks()
    ensures var content := Example().content;
            && EntryChunk(content, IndexEntry(Some(1), 12, 6), "\n") == Row1
            && EntryChunk(content, IndexEntry(Some(2), 18, 6), "\n") == Row2
            && EntryChunk(content, IndexEntry(Some(3), 6, 6), "\n") == Row3
            && Chunk(Header, "\n") == Header
  {
    var content := Example().content;
    assert content[12..18] == Row1 && content[18..24] == Row2 && content[6..12] == Row3;
    assert LastChars(Row1, 1) == "\n" && LastChars(Row2, 1) == "\n" && LastChars(Row3, 1) == "\n";
    assert LastChars(Header, 1) == "\n";
  }

  /** Replaying the sorted entries writes the rows with keys 1, 2 and 3. */
  lemma ExampleReplay()
    ensures var e3, e1, e2 := IndexEntry(Some(3), 6, 6), IndexEntry(Some(1), 12, 6), IndexEntry(Some(2), 18, 6);
            ReplayText(Example().content, [e1, e2, e3], "\n") == Row1 + Row2 + Row3
  {
    var content := Example().content;
    var e3, e1, e2 := IndexEntry(Some(3), 6, 6), IndexEntry(Some(1), 12, 6), IndexEntry(Some(2), 18, 6);
    ExampleChunks();
    ReplayTextFront(content, e1, [e2, e3], "\n");
    ReplayTextFront(content, e2, [e3], "\n");
    ReplayTextFront(content, e3, [], "\n");
    assert [e3] + [] == [e3] && [e2] + [e3] == [e2, e3] && [e1] + [e2, e3] == [e1, e2, e3];
  }

  /** Replaying the entries in descending order writes the rows with keys 3, 2 and 1. */
  lemma ExampleDescendingReplay()
    ensures var e3, e1, e2 := IndexEntry(Some(3), 6, 6), IndexEntry(Some(1), 12, 6), IndexEntry(Some(2), 18, 6);
            ReplayText(Example().content, [e3, e2, e1], "\n") == Row3 + Row2 + Row1
  {
    var content := Example().content;
    var e3, e1, e2 := IndexEntry(Some(3), 6, 6), IndexEntry(Some(1), 12, 6), IndexEntry(Some(2), 18, 6);
    ExampleChunks();
    ReplayTextFront(content, e3, [e2, e1], "\n");
    ReplayTextFront(content, e2, [e1], "\n");
    ReplayTextFront(content, e1, [], "\n");
    assert [e1] + [] == [e1] && [e2] + [e1] == [e2, e1] && [e3] + [e2, e1] == [e3, e2, e1];
  }

  /**
   * The run writes the header, then the rows with keys 1, 2 and 3 ascending, or 3, 2 and 1
   * descending, and empties the store.
   */
  lemma ExampleRun(direction: SortDirection, hooks: set<Hook>)
    ensures var r := Run(Example(), true, FieldIndex(0), direction, Synchronous, hooks, None, None, [], Token);
            && r.failure.None?
            && r.output == Header + (if direction == Ascending then Row1 + Row2 + Row3 else Row3 + Row2 + Row1)
            && r.store == []
  {
    var s := Example();
    var p := ParamsOf(s, true, FieldIndex(0), Token);
    var e3, e1, e2 := IndexEntry(Some(3), 6, 6), IndexEntry(Some(1), 12, 6), IndexEntry(Some(2), 18, 6);
    ExampleWellFormed();
    ExampleLineEnding();
    ExampleEntries();
    ExampleOrder();
    ExampleDescendingOrder();
    ExampleChunks();
    ExampleReplay();
    ExampleDescendingReplay();
    ExampleKeysReadable();
    assert s.records[0].rawRecord == Header;
    CompletedRun(s, true, FieldIndex(0), direction, Synchronous, hooks, Token);
    assert Scan(s.records, |s.records|, p).added == [e3, e1, e2];
    assert HeaderText(s, true, "\n") == Header;
  }
}
