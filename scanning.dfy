/**
 * The record scan of `CsvSorter<T>.CreateIndexAsync`, as pure functions over the records
 * the CSV parser reports: where each record starts, which record becomes the header, how
 * the canonical line ending is found, and where the scan stops on cancellation or on a
 * field that cannot be read.
 */
module Scanning {
  import opened Wrappers
  import opened Entities

  /** A selected field as the parser converts it to the key type. */
  datatype Field = Converted(key: Option<int>) | Unconvertible

  /**
   * One record as the parser reports it: its raw text (terminator included), the parser's
   * cumulative byte count after it (counted from where the scan started), and its fields,
   * by header name and by position.
   */
  datatype ParsedRecord = ParsedRecord(rawRecord: string, byteCount: nat, byName: map<string, Field>, byIndex: seq<Field>)

  /** How the sort field is chosen: by header name or by zero-based position. */
  datatype FieldSelector = FieldName(name: string) | FieldIndex(index: nat)

  /** The field the selector names, if the record has it: by header name or by position. */
  function SelectedField(record: ParsedRecord, selector: FieldSelector): Option<Field> {
    match selector
    case FieldName(name) => if name in record.byName then Some(record.byName[name]) else None
    case FieldIndex(index) => if index < |record.byIndex| then Some(record.byIndex[index]) else None
  }

  /** `GetField<T>(name)` or `GetField<T>(index)`: the key, or the parser's exception. */
  function GetField(record: ParsedRecord, selector: FieldSelector): (r: Result<Option<int>, SortError>)
    ensures r.Failure? ==> r.error == FieldReadFailed
    ensures r.Success? <==> SelectedField(record, selector).Some? && SelectedField(record, selector).value.Converted?
    ensures r.Success? ==> SelectedField(record, selector) == Some(Converted(r.value))
    ensures selector.FieldIndex? && selector.index >= |record.byIndex| ==> r.Failure?
    ensures selector.FieldName? && selector.name !in record.byName ==> r.Failure?
  {
    match SelectedField(record, selector)
    case Some(Converted(key)) => Success(key)
    case _ => Failure(FieldReadFailed)
  }

  // ---------------------------------------------------------------------------
  // The canonical line ending: Regex.Match(rawRecord, "(\r\n|\r|\n)$").Groups[0].Value

  predicate EndsWith(s: string, suffix: string) {
    |suffix| <= |s| && s[|s| - |suffix|..] == suffix
  }

  /** .NET's `$` without RegexOptions.Multiline: at the end, or just before a final '\n'. */
  predicate EndAnchor(s: string, q: nat) {
    q == |s| || (q + 1 == |s| && s[q] == '\n')
  }

  /** The first alternative of `\r\n|\r|\n` that matches at `p` and is followed by `$`. */
  function MatchAt(s: string, p: nat): Option<string> {
    if p + 2 <= |s| && s[p] == '\r' && s[p + 1] == '\n' && EndAnchor(s, p + 2) then Some("\r\n")
    else if p + 1 <= |s| && s[p] == '\r' && EndAnchor(s, p + 1) then Some("\r")
    else if p + 1 <= |s| && s[p] == '\n' && EndAnchor(s, p + 1) then Some("\n")
    else None
  }

  /** The leftmost match starting at `p` or later. */
  function FirstMatchFrom(s: string, p: nat): Option<string>
    requires p <= |s|
    decreases |s| - p
  {
    match MatchAt(s, p)
    case Some(m) => Some(m)
    case None => if p == |s| then None else FirstMatchFrom(s, p + 1)
  }

  /** The matched text, or "" when the record has no terminator (a failed match's value). */
  function LineEndingOf(rawRecord: string): string {
    match FirstMatchFrom(rawRecord, 0)
    case Some(m) => m
    case None => ""
  }

  /** The terminator the record ends with: `\r\n`, `\r`, `\n`, or none. */
  function TerminatorSuffix(s: string): (t: string)
    ensures EndsWith(s, t)
  {
    if EndsWith(s, "\r\n") then "\r\n"
    else if EndsWith(s, "\r") then "\r"
    else if EndsWith(s, "\n") then "\n"
    else ""
  }

  /** No match can start three or more units before the end. */
  lemma {:induction false} NoEarlyMatch(s: string, p: nat)
    requires p <= |s|
    ensures FirstMatchFrom(s, p) == FirstMatchFrom(s, if p + 3 <= |s| then |s| - 3 else p)
    decreases |s| - p
  {
    if p + 3 < |s| {
      assert MatchAt(s, p) == None;
      NoEarlyMatch(s, p + 1);
    }
  }

  /** The matches that can start in the last three units. */
  lemma LastMatches(s: string)
    ensures FirstMatchFrom(s, |s|) == None
    ensures |s| >= 1 ==>
              (FirstMatchFrom(s, |s| - 1) ==
                 if s[|s| - 1] == '\r' then Some("\r") else if s[|s| - 1] == '\n' then Some("\n") else None)
    ensures |s| >= 2 ==>
              (FirstMatchFrom(s, |s| - 2) ==
                 if s[|s| - 2] == '\r' && s[|s| - 1] == '\n' then Some("\r\n")
                 else if s[|s| - 2] == '\n' && s[|s| - 1] == '\n' then Some("\n")
                 else FirstMatchFrom(s, |s| - 1))
    ensures |s| >= 3 ==>
              (FirstMatchFrom(s, |s| - 3) ==
                 if s[|s| - 3] == '\r' && s[|s| - 2] == '\n' && s[|s| - 1] == '\n' then Some("\r\n")
                 else FirstMatchFrom(s, |s| - 2))
  {
  }

  lemma EndsWithOne(s: string, c: char)
    ensures EndsWith(s, [c]) <==> |s| >= 1 && s[|s| - 1] == c
  {
    if |s| >= 1 && s[|s| - 1] == c {
      assert s[|s| - 1..] == [c];
    }
  }

  lemma EndsWithTwo(s: string, c: char, d: char)
    ensures EndsWith(s, [c, d]) <==> |s| >= 2 && s[|s| - 2] == c && s[|s| - 1] == d
  {
    if |s| >= 2 && s[|s| - 2] == c && s[|s| - 1] == d {
      assert s[|s| - 2..] == [c, d];
    }
  }

  lemma EndsWithThree(s: string, c: char, d: char, e: char)
    ensures EndsWith(s, [c, d, e]) <==> |s| >= 3 && s[|s| - 3] == c && s[|s| - 2] == d && s[|s| - 1] == e
  {
    if |s| >= 3 && s[|s| - 3] == c && s[|s| - 2] == d && s[|s| - 1] == e {
      assert s[|s| - 3..] == [c, d, e];
    }
  }

  /**
   * The canonical line ending is the record's terminator suffix, except that a record
   * ending in "\r\n\n" gets "\r\n", because `$` also matches before a final '\n'.
   */
  lemma LineEndingOfRecord(rawRecord: string)
    ensures LineEndingOf(rawRecord) ==
              if EndsWith(rawRecord, "\r\n\n") then "\r\n" else TerminatorSuffix(rawRecord)
    ensures LineEndingOf(rawRecord) in {"", "\r\n", "\r", "\n"}
  {
    var s, n := rawRecord, |rawRecord|;
    NoEarlyMatch(s, 0);
    LastMatches(s);
    EndsWithThree(s, '\r', '\n', '\n');
    EndsWithTwo(s, '\r', '\n');
    EndsWithOne(s, '\r');
    EndsWithOne(s, '\n');
    var r := LineEndingOf(s);
    if n == 0 {
      assert r == "";
    } else if s[n - 1] == '\r' {
      assert r == "\r" && TerminatorSuffix(s) == "\r";
    } else if s[n - 1] != '\n' {
      assert r == "" && TerminatorSuffix(s) == "";
    } else if n >= 2 && s[n - 2] == '\r' {
      assert r == "\r\n" && TerminatorSuffix(s) == "\r\n";
    } else if n >= 3 && s[n - 3] == '\r' && s[n - 2] == '\n' {
      assert r == "\r\n" && EndsWith(s, "\r\n\n");
    } else {
      assert r == "\n" && TerminatorSuffix(s) == "\n";
    }
  }

  // ---------------------------------------------------------------------------
  // The scan

  /** The inputs of one scan: BOM size, header flag, field selector and token. */
  datatype ScanParams = ScanParams(
    bomSize: nat,
    hasHeaderRecord: bool,
    selector: FieldSelector,
    token: CancellationToken,
    firstCheck: nat)

  /**
   * What a scan has done so far: the line ending it found, the header it set, the entries
   * it added to the store, and the exception that stopped it.
   */
  datatype ScanState = ScanState(
    lineEnding: Option<string>,
    header: Option<IndexEntry>,
    added: seq<IndexEntry>,
    failure: Option<SortError>)

  /** `previousByteCount` when record `i` is read: the BOM size, then the last record's count plus the BOM size. */
  function RecordOffset(records: seq<ParsedRecord>, bomSize: nat, i: nat): nat
    requires i <= |records|
  {
    if i == 0 then bomSize else records[i - 1].byteCount + bomSize
  }

  /** `GetIndexFromRecord()` for record `i`. */
  function EntryAt(records: seq<ParsedRecord>, i: nat, p: ScanParams): Result<IndexEntry, SortError>
    requires i < |records|
  {
    match GetField(records[i], p.selector)
    case Success(key) => Success(IndexEntry(key, RecordOffset(records, p.bomSize, i), |records[i].rawRecord|))
    case Failure(e) => Failure(e)
  }

  /** The header entry: offset and length of the first record, no key. */
  function HeaderEntry(records: seq<ParsedRecord>, bomSize: nat): IndexEntry
    requires records != []
  {
    IndexEntry(None, bomSize, |records[0].rawRecord|)
  }

  /** One iteration of the scan, on record `i`; the check point it uses is `firstCheck + i`. */
  function ScanStep(st: ScanState, records: seq<ParsedRecord>, i: nat, p: ScanParams): ScanState
    requires i < |records|
  {
    if st.failure.Some? then st
    else if CheckCancelled(p, i) then st.(failure := Some(OperationCanceled))
    else
      var st' := if i == 0 then st.(lineEnding := Some(LineEndingOf(records[0].rawRecord))) else st;
      if i == 0 && p.hasHeaderRecord then st'.(header := Some(HeaderEntry(records, p.bomSize)))
      else
        match EntryAt(records, i, p)
        case Success(entry) => st'.(added := st'.added + [entry])
        case Failure(e) => st'.(failure := Some(e))
  }

  /** Check point `firstCheck + i`, before record `i`, reads the token as cancelled. */
  predicate CheckCancelled(p: ScanParams, i: nat) {
    IsCancellationRequested(p.token, p.firstCheck + i)
  }

  /** The scan of the first `k` records. */
  function Scan(records: seq<ParsedRecord>, k: nat, p: ScanParams): ScanState
    requires k <= |records|
  {
    if k == 0 then ScanState(None, None, [], None)
    else ScanStep(Scan(records, k - 1, p), records, k - 1, p)
  }

  /** The number of records that become the header (the first one, when the format has a header). */
  function HeaderCount(records: seq<ParsedRecord>, p: ScanParams): nat {
    if p.hasHeaderRecord && records != [] then 1 else 0
  }

  /** The key of record `i`, which a completed scan has read. */
  predicate KeyReadable(records: seq<ParsedRecord>, i: nat, p: ScanParams)
    requires i < |records|
  {
    (i == 0 && p.hasHeaderRecord) || GetField(records[i], p.selector).Success?
  }

  /**
   * The scan of the first `k` records completes exactly when no check point among them
   * reads the token as cancelled and every data record's key can be read.
   */
  lemma {:induction false} ScanCompletes(records: seq<ParsedRecord>, k: nat, p: ScanParams)
    requires k <= |records|
    ensures Scan(records, k, p).failure.None? <==>
              (forall i :: 0 <= i < k ==> !CheckCancelled(p, i)) &&
              (forall i :: 0 <= i < k ==> KeyReadable(records, i, p))
  {
    if k > 0 {
      ScanCompletes(records, k - 1, p);
      assert Scan(records, k, p).failure.None? <==>
               Scan(records, k - 1, p).failure.None? && !CheckCancelled(p, k - 1) && KeyReadable(records, k - 1, p);
    }
  }

  /**
   * A completed scan of the first `k` records: the first record is the header when the
   * format has one; every other record `i` became, in order, an entry with record `i`'s key,
   * offset `RecordOffset(i)` and raw length; the line ending is the first record's.
   */
  lemma ScanEntries(records: seq<ParsedRecord>, k: nat, p: ScanParams)
    requires k <= |records| && Scan(records, k, p).failure.None?
    ensures var st, h := Scan(records, k, p), HeaderCount(records[..k], p);
            && |st.added| == k - h
            && (forall j :: 0 <= j < |st.added| ==>
                  EntryAt(records, j + h, p) == Success(st.added[j]) &&
                  st.added[j].offset == RecordOffset(records, p.bomSize, j + h) &&
                  st.added[j].length == |records[j + h].rawRecord|)
            && st.header == (if h == 1 then Some(HeaderEntry(records, p.bomSize)) else None)
            && st.lineEnding == (if k > 0 then Some(LineEndingOf(records[0].rawRecord)) else None)
  {
    ScanAdded(records, k, p);
  }

  /** The entries of a completed scan are, in order, `EntryAt` of the records after the header. */
  lemma {:induction false} ScanAdded(records: seq<ParsedRecord>, k: nat, p: ScanParams)
    requires k <= |records| && Scan(records, k, p).failure.None?
    ensures var st, h := Scan(records, k, p), HeaderCount(records[..k], p);
            && |st.added| == k - h
            && (forall j :: 0 <= j < |st.added| ==> EntryAt(records, j + h, p) == Success(st.added[j]))
            && st.header == (if h == 1 then Some(HeaderEntry(records, p.bomSize)) else None)
            && st.lineEnding == (if k > 0 then Some(LineEndingOf(records[0].rawRecord)) else None)
  {
    if k > 0 {
      var prev, st := Scan(records, k - 1, p), Scan(records, k, p);
      assert prev.failure.None?;
      ScanAdded(records, k - 1, p);
      assert records[..k - 1] == [] <==> k == 1;
      if !(k == 1 && p.hasHeaderRecord) {
        var h := HeaderCount(records[..k], p);
        assert h == HeaderCount(records[..k - 1], p);
        assert st.added == prev.added + [EntryAt(records, k - 1, p).value];
        forall j | 0 <= j < |st.added| ensures EntryAt(records, j + h, p) == Success(st.added[j]) {
          if j < |prev.added| {
            assert st.added[j] == prev.added[j];
          }
        }
      }
    }
  }

  /** Once a scan has failed, later records change nothing. */
  lemma {:induction false} ScanFailureSticks(records: seq<ParsedRecord>, j: nat, k: nat, p: ScanParams)
    requires j <= k <= |records| && Scan(records, j, p).failure.Some?
    ensures Scan(records, k, p) == Scan(records, j, p)
    decreases k
  {
    if k > j {
      ScanFailureSticks(records, j, k - 1, p);
    }
  }

  /**
   * A token cancelled before the scan's first check point stops a non-empty scan at its
   * first record, before any line ending, header or entry is recorded.
   */
  lemma ScanCancelledInAdvance(records: seq<ParsedRecord>, p: ScanParams)
    requires records != [] && CheckCancelled(p, 0)
    ensures Scan(records, |records|, p) == ScanState(None, None, [], Some(OperationCanceled))
  {
    ScanFailureSticks(records, 1, |records|, p);
  }
}
