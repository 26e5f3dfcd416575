/**
 * The value objects shared by the index store, the index coordinator and the sorter:
 * the index entry (`CsvSorterIndex<T>`), the sort direction, the exceptions the core
 * raises, and the cancellation token as the check points observe it.
 */
module Entities {
  import opened Wrappers

  /**
   * One indexed record: its sort key (`None` for a null key), the position of its first
   * unit in the source and the number of units of its raw text. The model assumes a
   * single-byte encoding, so byte offsets and character counts are the same unit.
   */
  datatype IndexEntry = IndexEntry(value: Option<int>, offset: nat, length: nat)

  datatype SortDirection = Ascending | Descending

  /** The exceptions the core raises or lets through. */
  datatype SortError =
    | ArgumentNull(paramName: string)
    | NullReference(message: string)
    | OperationCanceled
      /** A missing field or a failed type conversion, raised by the record parser. */
    | FieldReadFailed

  /**
   * A cancellation token as seen by the check points of one sort run. The check points are
   * numbered in the order the run reaches them; `cancelledFromCheck == Some(n)` means that
   * the token reads as cancelled at check point `n` and at every later one (a token cannot
   * be un-cancelled), `Some(0)` being a token cancelled in advance.
   */
  datatype CancellationToken = CancellationToken(cancelledFromCheck: Option<nat>)

  /** `ThrowIfCancellationRequested` throws at check point `check` exactly when this holds. */
  predicate IsCancellationRequested(token: CancellationToken, check: nat) {
    token.cancelledFromCheck.Some? && token.cancelledFromCheck.value <= check
  }
}
