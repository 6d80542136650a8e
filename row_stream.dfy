/** What `fetchRows` promises about a result set: one record per cursor row, in cursor order, all
    with the one schema of the result, decoded column by column; the cursor stops quietly only on
    the end-of-data signal. The loop itself is `AdaptorChannel.FetchRows`. */
module RowStream {
  import opened Wrappers
  import opened ZeeQL
  import opened Text
  import opened Dbd
  import opened ValueDecoder

  /** `AdaptorRecordSchemaWithAttributes` or `AdaptorRecordSchemaWithNames`. */
  datatype Schema = AttributeSchema(attributes: seq<Attribute>) | NameSchema(names: seq<string>)

  /** `AdaptorRecord`: a schema and one optional value per column. */
  datatype Record = Record(schema: Schema, values: seq<Option<Value>>)

  /** A caller's callback over records, with the state it captures: the next state, or the error it throws. */
  type Callback<!S> = (S, Record) -> Result<S, Error>

  /** End of data, told apart from an error: rc -1 with the PostgreSQL message "" or the SQLite3
      message "not an error". */
  predicate IsEndOfData(rc: int, message: Option<string>) {
    rc == -1 && (message == Some("") || message == Some("not an error"))
  }

  /** The name of column `k` when no attributes were given: the driver's name, else `col[k]`. */
  function ColumnName(names: seq<Option<string>>, k: nat): (n: string)
    requires k < |names|
    ensures names[k].Some? ==> n == names[k].value
    ensures names[k].None? ==> n == "col[" + Decimal(k) + "]"
  {
    if names[k].Some? then names[k].value else "col[" + Decimal(k) + "]"
  }

  /** The schema of every record of a result. */
  function ResultSchema(rs: ResultSet, attrs: Option<seq<Attribute>>): Schema {
    match attrs
    case Some(a) => AttributeSchema(a)
    case None => NameSchema(seq(|rs.names|, k requires 0 <= k < |rs.names| => ColumnName(rs.names, k)))
  }

  /** The attribute that decodes column `k`: `attrs[k]` when there is one. */
  function AttributeAt(attrs: Option<seq<Attribute>>, k: nat): Option<Attribute> {
    if attrs.Some? && k < |attrs.value| then Some(attrs.value[k]) else None
  }

  function DecodeRow(rs: ResultSet, attrs: Option<seq<Attribute>>, cells: seq<Cell>): Record
    requires |cells| == |rs.names|
  {
    Record(ResultSchema(rs, attrs), seq(|cells|, k requires 0 <= k < |cells| => ValueIn(cells[k], AttributeAt(attrs, k))))
  }

  /** The outcome of fetching from cursor position `i` on, with callback state `s`. */
  function FetchFrom<S>(rs: ResultSet, attrs: Option<seq<Attribute>>, cb: Callback<S>, i: nat, s: S): Result<S, Error>
    requires WellFormed(rs) && i < |rs.steps|
    decreases |rs.steps| - i
  {
    match rs.steps[i]
    case Fail(rc, msg) => if IsEndOfData(rc, msg) then Success(s) else Failure(APRDBDError(rc, msg))
    case Row(cells) =>
      match cb(s, DecodeRow(rs, attrs, cells))
      case Failure(e) => Failure(e)
      case Success(s') => FetchFrom(rs, attrs, cb, i + 1, s')
  }

  /** The outcome of `fetchRows` on a whole result. */
  function Fetch<S>(rs: ResultSet, attrs: Option<seq<Attribute>>, cb: Callback<S>, s0: S): Result<S, Error>
    requires WellFormed(rs)
  {
    FetchFrom(rs, attrs, cb, 0, s0)
  }

  // ---- an independent description: the records of the cursor, then the callback folded over them

  /** Position of the first non-row answer at or after `i`. */
  function StopIndex(rs: ResultSet, i: nat): (j: nat)
    requires WellFormed(rs) && i < |rs.steps|
    ensures i <= j < |rs.steps| && rs.steps[j].Fail?
    ensures forall k :: i <= k < j ==> rs.steps[k].Row?
    decreases |rs.steps| - i
  {
    if rs.steps[i].Fail? then i else StopIndex(rs, i + 1)
  }

  /** The decoded records of the rows from position `i` up to the first non-row answer. */
  function RecordsFrom(rs: ResultSet, attrs: Option<seq<Attribute>>, i: nat): (recs: seq<Record>)
    requires WellFormed(rs) && i < |rs.steps|
    ensures |recs| == StopIndex(rs, i) - i
    ensures forall k :: 0 <= k < |recs| ==> recs[k] == DecodeRow(rs, attrs, rs.steps[i + k].cells)
    decreases |rs.steps| - i
  {
    if rs.steps[i].Fail? then [] else [DecodeRow(rs, attrs, rs.steps[i].cells)] + RecordsFrom(rs, attrs, i + 1)
  }

  /** The callback applied to each record in order, stopping at the first error it throws. */
  function FoldRecords<S>(cb: Callback<S>, s: S, recs: seq<Record>): Result<S, Error> {
    if recs == [] then Success(s)
    else
      match cb(s, recs[0])
      case Failure(e) => Failure(e)
      case Success(s') => FoldRecords(cb, s', recs[1..])
  }

  /** How the cursor's stopping answer turns a callback outcome into the outcome of the fetch. */
  function Finish<S>(r: Result<S, Error>, rc: int, message: Option<string>): Result<S, Error> {
    match r
    case Failure(e) => Failure(e)
    case Success(s) => if IsEndOfData(rc, message) then Success(s) else Failure(APRDBDError(rc, message))
  }

  lemma {:induction false} FetchFromIsFold<S>(rs: ResultSet, attrs: Option<seq<Attribute>>, cb: Callback<S>, i: nat, s: S)
    requires WellFormed(rs) && i < |rs.steps|
    ensures var stop := rs.steps[StopIndex(rs, i)];
      FetchFrom(rs, attrs, cb, i, s) == Finish(FoldRecords(cb, s, RecordsFrom(rs, attrs, i)), stop.rc, stop.message)
    decreases |rs.steps| - i
  {
    if rs.steps[i].Row? {
      var recs := RecordsFrom(rs, attrs, i);
      assert recs[1..] == RecordsFrom(rs, attrs, i + 1);
      match cb(s, DecodeRow(rs, attrs, rs.steps[i].cells))
      case Failure(e) =>
      case Success(s') => FetchFromIsFold(rs, attrs, cb, i + 1, s');
    }
  }

  /** `fetchRows` hands the callback the cursor's rows exactly once each and in cursor order,
      stops at the first error the callback throws, and only after all rows looks at the
      stopping answer: quiet for end of data, `APRDBDError` otherwise. */
  lemma FetchIsFold<S>(rs: ResultSet, attrs: Option<seq<Attribute>>, cb: Callback<S>, s0: S)
    requires WellFormed(rs)
    ensures var stop := rs.steps[StopIndex(rs, 0)];
      Fetch(rs, attrs, cb, s0) == Finish(FoldRecords(cb, s0, RecordsFrom(rs, attrs, 0)), stop.rc, stop.message)
  {
    FetchFromIsFold(rs, attrs, cb, 0, s0);
  }

  /** Every record has one value per column, all records share the schema of the result, and
      column k is decoded with `attrs[k]` exactly when k < |attrs|; without attributes the schema
      names are the driver's names or `col[k]`. */
  lemma RecordShape(rs: ResultSet, attrs: Option<seq<Attribute>>, r: Record, k: nat)
    requires WellFormed(rs) && r in RecordsFrom(rs, attrs, 0)
    ensures |r.values| == |rs.names|
    ensures r.schema == ResultSchema(rs, attrs)
    ensures k < |rs.names| ==>
      (exists i :: 0 <= i < |rs.steps| && rs.steps[i].Row? &&
        r.values[k] == ValueIn(rs.steps[i].cells[k], if attrs.Some? && k < |attrs.value| then Some(attrs.value[k]) else None))
    ensures attrs.None? ==>
      (r.schema.NameSchema? && |r.schema.names| == |rs.names| &&
        forall j :: 0 <= j < |rs.names| ==>
          r.schema.names[j] == (if rs.names[j].Some? then rs.names[j].value else "col[" + Decimal(j) + "]"))
  {
    var recs := RecordsFrom(rs, attrs, 0);
    var p :| 0 <= p < |recs| && recs[p] == r;
    assert rs.steps[p].Row?;
  }

  /** rc -1 with no message is an error, not end of data. */
  lemma NilMessageIsError<S>(rs: ResultSet, attrs: Option<seq<Attribute>>, cb: Callback<S>, s0: S)
    requires WellFormed(rs) && rs.steps[0] == Step.Fail(-1, None)
    ensures Fetch(rs, attrs, cb, s0) == Failure(APRDBDError(-1, None))
  {
  }

  /** When the callback never throws, the fetch succeeds exactly when the cursor ends with the
      end-of-data signal. */
  lemma QuietStopOnlyAtEndOfData<S>(rs: ResultSet, attrs: Option<seq<Attribute>>, cb: Callback<S>, s0: S)
    requires WellFormed(rs)
    requires forall s, r :: cb(s, r).Success?
    ensures var stop := rs.steps[StopIndex(rs, 0)];
      Fetch(rs, attrs, cb, s0).Success? <==> IsEndOfData(stop.rc, stop.message)
  {
    FetchIsFold(rs, attrs, cb, s0);
    FoldNeverFails(cb, s0, RecordsFrom(rs, attrs, 0));
  }

  lemma {:induction false} FoldNeverFails<S>(cb: Callback<S>, s: S, recs: seq<Record>)
    requires forall s, r :: cb(s, r).Success?
    ensures FoldRecords(cb, s, recs).Success?
    decreases |recs|
  {
    if recs != [] {
      FoldNeverFails(cb, cb(s, recs[0]).value, recs[1..]);
    }
  }
}
