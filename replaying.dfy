/**
 * The replay of `CsvSorter<T>.WriteSortedAsync`: for each yielded entry, seek the source to
 * the entry's offset, read `Length` characters into a fresh buffer, write the buffer, and
 * write the canonical line ending after it unless the buffer already ends with it.
 */
module Replaying {
  import opened Wrappers
  import opened Entities
  import opened Scanning
  import opened Services

  function Min(a: nat, b: nat): nat {
    if a <= b then a else b
  }

  /**
   * `new char[length]` filled by `ReadAsync(c, 0, length)` after seeking to `offset`: the
   * units the source still holds from `offset`, and '\0' (the array's initial value) for
   * the rest.
   */
  function ReadChars(content: string, offset: nat, length: nat): (c: string)
    ensures |c| == length
    ensures offset + length <= |content| ==> c == content[offset..offset + length]
  {
    var available := if offset < |content| then content[offset..Min(offset + length, |content|)] else [];
    available + seq(length - |available|, _ => '\0')
  }

  /** Positions of the buffer past the end of the source keep the array's initial '\0'. */
  lemma ReadPastEnd(content: string, offset: nat, length: nat)
    ensures var c := ReadChars(content, offset, length);
            forall k :: 0 <= k < length && offset + k >= |content| ==> c[k] == '\0'
  {
  }

  /** `c.Reverse().Take(n).Reverse()`: the last `n` characters, or all of them if fewer. */
  function LastChars(c: string, n: nat): string {
    c[|c| - Min(n, |c|)..]
  }

  /**
   * What the replay writes for a buffer `c`: `c`, then `lineEnding` when the last
   * `|lineEnding|` characters of `c` differ from it.
   */
  function Chunk(c: string, lineEnding: string): string {
    if LastChars(c, |lineEnding|) != lineEnding then c + lineEnding else c
  }

  /**
   * A chunk always ends with the line ending and starts with the buffer; it is the buffer
   * itself exactly when the buffer already ends with the line ending (so always when the
   * line ending is empty), and the buffer followed by the line ending otherwise.
   */
  lemma ChunkEndsWithLineEnding(c: string, lineEnding: string)
    ensures var w := Chunk(c, lineEnding);
            && EndsWith(w, lineEnding)
            && |c| <= |w| && w[..|c|] == c
            && (w == c <==> EndsWith(c, lineEnding))
            && (w != c ==> w == c + lineEnding)
            && (lineEnding == [] ==> w == c)
  {
    var w := Chunk(c, lineEnding);
    if LastChars(c, |lineEnding|) != lineEnding {
      assert (c + lineEnding)[|c + lineEnding| - |lineEnding|..] == lineEnding;
      assert (c + lineEnding)[..|c|] == c;
    } else {
      assert c[..|c|] == c;
    }
  }

  /** The buffer's length, plus the line ending's when the buffer does not end with it. */
  function ChunkSize(c: string, lineEnding: string): nat {
    |c| + (if EndsWith(c, lineEnding) then 0 else |lineEnding|)
  }

  /** A chunk adds the line ending's length exactly when the buffer does not end with it. */
  lemma ChunkLength(c: string, lineEnding: string)
    ensures |Chunk(c, lineEnding)| == ChunkSize(c, lineEnding)
  {
  }

  /**
   * What the replay has done so far: the text written, the number of the next check point,
   * and the exception that stopped it.
   */
  datatype ReplayState = ReplayState(output: string, checks: nat, failure: Option<SortError>)

  /**
   * One iteration: the enumerator's check (when the element has one), then seek, read and
   * write the buffer, then `_lineEnding!.Length`, which throws when no line ending was ever
   * found, after the buffer is written.
   */
  function ReplayStep(st: ReplayState, y: Yield, content: string, lineEnding: Option<string>, token: CancellationToken): ReplayState {
    if st.failure.Some? then st
    else if y.checked && IsCancellationRequested(token, st.checks) then st.(failure := Some(OperationCanceled))
    else
      var checks := if y.checked then st.checks + 1 else st.checks;
      var c := ReadChars(content, y.entry.offset, y.entry.length);
      if lineEnding.None? then ReplayState(st.output + c, checks, Some(NullReference("lineEnding")))
      else ReplayState(st.output + Chunk(c, lineEnding.value), checks, None)
  }

  /** The replay of the first `k` yielded elements, starting at check point `firstCheck`. */
  function Replay(ys: seq<Yield>, k: nat, content: string, lineEnding: Option<string>, token: CancellationToken, firstCheck: nat): ReplayState
    requires k <= |ys|
  {
    if k == 0 then ReplayState([], firstCheck, None)
    else ReplayStep(Replay(ys, k - 1, content, lineEnding, token, firstCheck), ys[k - 1], content, lineEnding, token)
  }

  /** The text replayed for entry `e`. */
  function EntryChunk(content: string, e: IndexEntry, lineEnding: string): string {
    Chunk(ReadChars(content, e.offset, e.length), lineEnding)
  }

  /** The text replayed for the entries `es`: their chunks, one after the other. */
  function ReplayText(content: string, es: seq<IndexEntry>, lineEnding: string): string {
    if es == [] then []
    else ReplayText(content, es[..|es| - 1], lineEnding) + EntryChunk(content, es[|es| - 1], lineEnding)
  }

  /** No check point reached by the first `k` elements reads the token as cancelled. */
  predicate NotCancelledBefore(token: CancellationToken, limit: nat) {
    token.cancelledFromCheck.None? || token.cancelledFromCheck.value >= limit
  }

  /**
   * With a line ending known and no cancellation, replaying `k` elements writes the chunks of
   * their entries, one after the other, and passes one check point per checked element.
   */
  lemma {:induction false} ReplayWrites(ys: seq<Yield>, k: nat, content: string, lineEnding: string, token: CancellationToken, firstCheck: nat)
    requires k <= |ys| && NotCancelledBefore(token, firstCheck + k)
    ensures var st := Replay(ys, k, content, Some(lineEnding), token, firstCheck);
            && st.failure.None?
            && st.checks <= firstCheck + k
            && st.output == ReplayText(content, EntriesOf(ys[..k]), lineEnding)
  {
    if k > 0 {
      ReplayWrites(ys, k - 1, content, lineEnding, token, firstCheck);
      assert ys[..k][..k - 1] == ys[..k - 1];
    }
  }

  /**
   * Element `i` of a replay that has not failed: when its check reads the token as
   * cancelled the replay ends there, with the output so far.
   */
  lemma ReplayCancelledAt(ys: seq<Yield>, i: nat, content: string, lineEnding: Option<string>, token: CancellationToken, firstCheck: nat)
    requires i < |ys|
    requires var st := Replay(ys, i, content, lineEnding, token, firstCheck);
             st.failure.None? && ys[i].checked && IsCancellationRequested(token, st.checks)
    ensures Replay(ys, |ys|, content, lineEnding, token, firstCheck)
            == Replay(ys, i, content, lineEnding, token, firstCheck).(failure := Some(OperationCanceled))
  {
    ReplayFailureSticks(ys, i + 1, |ys|, content, lineEnding, token, firstCheck);
  }

  /**
   * Element `i` of a replay that has not failed and passes its check: without a line ending
   * the buffer is written and the replay ends with a null reference; with one, the element's
   * chunk is written.
   */
  lemma ReplayNext(ys: seq<Yield>, i: nat, content: string, lineEnding: Option<string>, token: CancellationToken, firstCheck: nat)
    requires i < |ys|
    requires var st := Replay(ys, i, content, lineEnding, token, firstCheck);
             st.failure.None? && !(ys[i].checked && IsCancellationRequested(token, st.checks))
    ensures var st := Replay(ys, i, content, lineEnding, token, firstCheck);
            var c := ReadChars(content, ys[i].entry.offset, ys[i].entry.length);
            var checks := if ys[i].checked then st.checks + 1 else st.checks;
            && (lineEnding.None? ==> Replay(ys, |ys|, content, lineEnding, token, firstCheck)
                                       == ReplayState(st.output + c, checks, Some(NullReference("lineEnding"))))
            && (lineEnding.Some? ==> Replay(ys, i + 1, content, lineEnding, token, firstCheck)
                                       == ReplayState(st.output + Chunk(c, lineEnding.value), checks, None))
  {
    if lineEnding.None? {
      ReplayFailureSticks(ys, i + 1, |ys|, content, lineEnding, token, firstCheck);
    }
  }

  /** Once a replay has failed, later elements change nothing. */
  lemma {:induction false} ReplayFailureSticks(ys: seq<Yield>, j: nat, k: nat, content: string, lineEnding: Option<string>, token: CancellationToken, firstCheck: nat)
    requires j <= k <= |ys| && Replay(ys, j, content, lineEnding, token, firstCheck).failure.Some?
    ensures Replay(ys, k, content, lineEnding, token, firstCheck) == Replay(ys, j, content, lineEnding, token, firstCheck)
    decreases k
  {
    if k > j {
      ReplayFailureSticks(ys, j, k - 1, content, lineEnding, token, firstCheck);
    }
  }

  /**
   * When the first element is checked and its check point reads the token as cancelled,
   * the replay writes nothing and raises the cancellation.
   */
  lemma ReplayCancelledAtStart(ys: seq<Yield>, content: string, lineEnding: Option<string>, token: CancellationToken, firstCheck: nat)
    requires ys != [] && ys[0].checked && IsCancellationRequested(token, firstCheck)
    ensures Replay(ys, |ys|, content, lineEnding, token, firstCheck) == ReplayState([], firstCheck, Some(OperationCanceled))
  {
    ReplayFailureSticks(ys, 1, |ys|, content, lineEnding, token, firstCheck);
  }
}
