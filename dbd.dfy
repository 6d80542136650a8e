/** The `apr_dbd` driver as the adaptor sees it: an interface whose operations answer with
    status codes, messages and cells. Every `apr_dbd_*` call of the adaptor is one field of `Driver`;
    the model is deterministic given those answers. */
module Dbd {
  import opened Wrappers
  import opened AprTypes

  /** `APR_SUCCESS`. */
  const APR_SUCCESS: int := 0
  /** `APR_ENOENT`, which APR defines as the platform's `ENOENT` (2 on Linux): "no such entry", i.e. SQL NULL. */
  const APR_ENOENT: int := 2
  /** `APR_DBD_TRANSACTION_COMMIT` and `APR_DBD_TRANSACTION_ROLLBACK`. */
  const TRANSACTION_COMMIT: int := 0
  const TRANSACTION_ROLLBACK: int := 1
  /** The row number `apr_dbd_get_row` is asked for: -1, the next row. */
  const NEXT_ROW: int := -1

  /** What a typed accessor left in the caller's buffer: nothing (the buffer keeps its zero or nil
      initial value), a number, an opaque floating-point value, or a C string (possibly null). */
  datatype Buffer = Untouched | Number(n: int) | Floating(description: string) | CString(p: Option<string>)

  /** The answer of `apr_dbd_datum_get` for one column of one row and one requested type. */
  datatype Datum = Datum(status: int, buffer: Buffer)

  /** One column of one fetched row: the typed accessor and `apr_dbd_get_entry`. */
  datatype Cell = Cell(datum: AprType -> Datum, entry: Option<string>)

  /** One answer of `apr_dbd_get_row`: a row (rc == 0), or a non-zero rc with the message
      `apr_dbd_error` gives for it at that moment. */
  datatype Step = Row(cells: seq<Cell>) | Fail(rc: int, message: Option<string>)

  /** A result set: `apr_dbd_get_name` for each column (`apr_dbd_num_cols` of them) and the cursor. */
  datatype ResultSet = ResultSet(names: seq<Option<string>>, steps: seq<Step>)

  /** What the driver interface guarantees of a cursor: it ends in a non-zero status, non-zero
      statuses are never rows and every row has one cell per column. */
  predicate WellFormed(rs: ResultSet) {
    && |rs.steps| > 0
    && rs.steps[|rs.steps| - 1].Fail?
    && (forall i :: 0 <= i < |rs.steps| && rs.steps[i].Fail? ==> rs.steps[i].rc != 0)
    && (forall i :: 0 <= i < |rs.steps| && rs.steps[i].Row? ==> |rs.steps[i].cells| == |rs.names|)
  }

  /** A result set as the driver hands it out. */
  type Cursor = rs: ResultSet | WellFormed(rs) witness ResultSet([], [Fail(-1, Some(""))])

  datatype TxHandle = TxHandle(id: nat)

  /** `apr_dbd_transaction_start`: the status and what the driver stored into the handle. */
  datatype TxReply = TxReply(rc: int, handle: Option<TxHandle>)
  /** `apr_dbd_query` / `apr_dbd_pquery`: the status and the affected-row count. */
  datatype ExecReply = ExecReply(rc: int, affected: int)
  /** `apr_dbd_select` / `apr_dbd_pselect`: the status and the result handle, if any. */
  datatype SelectReply = SelectReply(rc: int, results: Option<Cursor>)
  /** `apr_dbd_prepare`: the status and whether a statement handle came back. */
  datatype PrepareReply = PrepareReply(rc: int, prepared: bool)

  datatype Driver = Driver(
    name: Option<string>,                        // apr_dbd_name
    subpoolStatus: int,                          // apr_pool_create_ex for a per-call pool
    transactionStart: TxReply,                   // apr_dbd_transaction_start
    transactionModeSet: (TxHandle, int) -> int,  // apr_dbd_transaction_mode_set: the mode now active
    transactionEnd: TxHandle -> int,             // apr_dbd_transaction_end
    query: string -> ExecReply,                  // apr_dbd_query
    select: string -> SelectReply,               // apr_dbd_select
    prepare: string -> PrepareReply,             // apr_dbd_prepare
    pselect: (string, seq<string>) -> SelectReply,  // apr_dbd_pselect with text arguments
    pquery: (string, seq<string>) -> ExecReply,     // apr_dbd_pquery with text arguments
    error: int -> Option<string>)                // apr_dbd_error
}
