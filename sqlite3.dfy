/** The SQLite3 channel's `insertRow`: insert, recover the new primary key, optionally refetch the
    row, all inside a transaction the call opens itself when none is in progress. */
module SQLite3 {
  import opened Wrappers
  import opened ZeeQL
  import opened Dbd
  import opened RowStream
  import opened Upstream
  import opened SQLExpression
  import opened Channel

  /** `insertStatementForRow`: the INSERT and its binds, assembled from the upstream pieces. */
  function InsertStatement(up: Hooks, row: Row, entity: Option<Entity>): (string, seq<BindVariable>) {
    Assemble(up.insertParts(entity, row), [], up.unsetPlaceholder)
  }

  // ---- key recovery

  /** The query for the key SQLite assigned, on the quoted `externalName ?? name`. */
  function LastRowIdSQL(up: Hooks, en: Entity): string {
    "SELECT last_insert_rowid() FROM " + up.quoteName(en.externalName.GetOr(en.name)) + " LIMIT 1"
  }

  /** The typed select's callback: each record converted to an integer is stored in `lastRowId`;
      a record that converts to no integer is skipped; a conversion error is thrown. */
  function LastRowId(up: Hooks): Callback<Option<int>> {
    (lastRowId: Option<int>, rec: Record) =>
      match up.intOf(rec)
      case Failure(e) => Failure(e)
      case Success(None) => Success(lastRowId)
      case Success(Some(v)) => Success(Some(v))
  }

  /** Record `i` is the last one that converts to an integer. */
  predicate LastIntAt(up: Hooks, recs: seq<Record>, i: int) {
    && 0 <= i < |recs|
    && up.intOf(recs[i]).Success? && up.intOf(recs[i]).value.Some?
    && forall j :: i < j < |recs| ==> up.intOf(recs[j]).Success? && up.intOf(recs[j]).value.None?
  }

  /** When every conversion succeeds, the callback ends holding the integer of the last record that
      has one, or its initial value when none has. */
  lemma {:induction false} LastRowIdFold(up: Hooks, s: Option<int>, recs: seq<Record>)
    requires forall i :: 0 <= i < |recs| ==> up.intOf(recs[i]).Success?
    ensures FoldRecords(LastRowId(up), s, recs).Success?
    ensures (forall i :: 0 <= i < |recs| ==> up.intOf(recs[i]).value.None?) ==> FoldRecords(LastRowId(up), s, recs).value == s
    ensures forall i :: LastIntAt(up, recs, i) ==> FoldRecords(LastRowId(up), s, recs).value == up.intOf(recs[i]).value
    decreases |recs|
  {
    if recs != [] {
      var c := up.intOf(recs[0]).value;
      var s' := if c.Some? then c else s;
      assert LastRowId(up)(s, recs[0]) == Success(s');
      var tail := recs[1..];
      assert forall k :: 0 <= k < |tail| ==> tail[k] == recs[k + 1];
      LastRowIdFold(up, s', tail);
      assert FoldRecords(LastRowId(up), s, recs) == FoldRecords(LastRowId(up), s', tail);
      forall i | LastIntAt(up, recs, i)
        ensures FoldRecords(LastRowId(up), s, recs).value == up.intOf(recs[i]).value
      {
        if i == 0 {
          assert forall k :: 0 <= k < |tail| ==> up.intOf(tail[k]).value.None?;
        } else {
          assert LastIntAt(up, tail, i - 1);
        }
      }
    }
  }

  /** Key recovery: the key the row already has, if non-empty; else, for a single primary-key
      name, the last integer the `last_insert_rowid()` query delivers. */
  function PrimaryKey(d: Driver, up: Hooks, en: Entity, row: Row): (r: Result<Row, Error>)
    ensures var epkey := up.primaryKeyForRow(en, row);
      epkey.Some? && epkey.value != map[] ==> r == Success(epkey.value)
    ensures var epkey := up.primaryKeyForRow(en, row);
      !(epkey.Some? && epkey.value != map[]) && !(en.primaryKeyAttributeNames.Some? && |en.primaryKeyAttributeNames.value| == 1) ==>
        r == Failure(FailedToGrabNewPrimaryKey(en, row))
    ensures var epkey := up.primaryKeyForRow(en, row);
      !(epkey.Some? && epkey.value != map[]) && en.primaryKeyAttributeNames.Some? && |en.primaryKeyAttributeNames.value| == 1 ==>
        && (QuerySQL(d, LastRowIdSQL(up, en), None, LastRowId(up), None).Failure? ==>
              r == Failure(QuerySQL(d, LastRowIdSQL(up, en), None, LastRowId(up), None).error))
        && (r.Success? ==> r.value.Keys == {en.primaryKeyAttributeNames.value[0]})
    ensures r.Success? ==> r.value != map[]
  {
    var epkey := up.primaryKeyForRow(en, row);
    if epkey.Some? && epkey.value != map[] then Success(epkey.value)
    else if en.primaryKeyAttributeNames.Some? && |en.primaryKeyAttributeNames.value| == 1 then
      var pkeys := en.primaryKeyAttributeNames.value;
      var lastRowId: Result<Option<int>, Error> := QuerySQL(d, LastRowIdSQL(up, en), None, LastRowId(up), None);
      match lastRowId
      case Failure(e) => Failure(e)
      case Success(None) => Failure(FailedToGrabNewPrimaryKey(en, row))
      case Success(Some(id)) =>
        var key := map[pkeys[0] := Some(Integer(Int, id))];
        assert pkeys[0] in key;
        Success(key)
    else Failure(FailedToGrabNewPrimaryKey(en, row))
  }

  /** With a single primary-key name and a key query that streams its records to end of data, each
      converting without error: no integer among them throws `FailedToGrabNewPrimaryKey`, and
      otherwise the key maps that name to the last integer delivered. */
  lemma KeyFromLastRowId(d: Driver, up: Hooks, en: Entity, row: Row)
    requires var epkey := up.primaryKeyForRow(en, row); !(epkey.Some? && epkey.value != map[])
    requires en.primaryKeyAttributeNames.Some? && |en.primaryKeyAttributeNames.value| == 1
    requires d.subpoolStatus == APR_SUCCESS
    requires var reply := d.select(LastRowIdSQL(up, en)); reply.rc == APR_SUCCESS && reply.results.Some?
    requires var rs := d.select(LastRowIdSQL(up, en)).results.value;
      var stop := rs.steps[StopIndex(rs, 0)];
      IsEndOfData(stop.rc, stop.message)
    requires var recs := RecordsFrom(d.select(LastRowIdSQL(up, en)).results.value, None, 0);
      forall i :: 0 <= i < |recs| ==> up.intOf(recs[i]).Success?
    ensures var recs := RecordsFrom(d.select(LastRowIdSQL(up, en)).results.value, None, 0);
      (forall i :: 0 <= i < |recs| ==> up.intOf(recs[i]).value.None?) ==> PrimaryKey(d, up, en, row) == Failure(FailedToGrabNewPrimaryKey(en, row))
    ensures var recs := RecordsFrom(d.select(LastRowIdSQL(up, en)).results.value, None, 0);
      forall i :: LastIntAt(up, recs, i) ==>
        PrimaryKey(d, up, en, row) == Success(map[en.primaryKeyAttributeNames.value[0] := Some(Integer(Int, up.intOf(recs[i]).value.value))])
  {
    var sql := LastRowIdSQL(up, en);
    var rs := d.select(sql).results.value;
    var recs := RecordsFrom(rs, None, 0);
    QuerySQLOutcome(d, sql, None, LastRowId(up), None);
    LastRowIdFold(up, None, recs);
  }

  // ---- refetch

  /** The refetch: a select of all the entity's attributes matching the recovered key (limit 2),
      expecting exactly one record. */
  function RefetchStatement(up: Hooks, en: Entity, pkey: Row): (string, seq<BindVariable>) {
    Assemble(up.refetchParts(en, pkey), [], up.unsetPlaceholder)
  }

  function Refetch(d: Driver, up: Hooks, en: Entity, row: Row, pkey: Row): Result<Row, Error> {
    var q := RefetchStatement(up, en, pkey);
    var rec: Result<Option<Record>, Error> := EvaluateQueryExpression(d, q.0, q.1, Some(en.attributes), OneRecord(Some(en), row), None);
    match rec
    case Failure(e) => Failure(e)
    case Success(None) => Failure(FailedToRefetchInsertedRow(Some(en), row))
    case Success(Some(r)) => Success(up.recordAsRow(r))
  }

  /** Once the driver hands back the refetch's cursor, the refetch succeeds exactly when the
      cursor holds one record and then end of data, and gives that record as a row; none throws
      `FailedToRefetchInsertedRow`, a second one throws it inside the fetch, wrapped in `QueryFailed`. */
  lemma RefetchRequiresExactlyOneRecord(d: Driver, up: Hooks, en: Entity, row: Row, pkey: Row)
    requires var q := RefetchStatement(up, en, pkey); CursorFor(d, q.0, q.1).Some?
    ensures var q := RefetchStatement(up, en, pkey);
      var rs := CursorFor(d, q.0, q.1).value;
      var recs := RecordsFrom(rs, Some(en.attributes), 0);
      var stop := rs.steps[StopIndex(rs, 0)];
      var r := Refetch(d, up, en, row, pkey);
      && (r.Success? <==> |recs| == 1 && IsEndOfData(stop.rc, stop.message))
      && (r.Success? ==> r.value == up.recordAsRow(recs[0]))
      && (|recs| == 0 && IsEndOfData(stop.rc, stop.message) ==> r == Failure(FailedToRefetchInsertedRow(Some(en), row)))
      && (|recs| >= 2 ==> r == Failure(QueryFailed(q.0, FailedToRefetchInsertedRow(Some(en), row))))
  {
    var q := RefetchStatement(up, en, pkey);
    var rs := CursorFor(d, q.0, q.1).value;
    var attrs := Some(en.attributes);
    EvaluateQueryUsesCursor(d, q.0, q.1, attrs, OneRecord(Some(en), row), OneRecord(Some(en), row), None);
    OneRecordFetch(rs, attrs, Some(en), row, q.0);
  }

  // ---- the insert

  /** The body of the `do` block: the insert must affect one row; without an entity the row is the
      result; otherwise the recovered key, or the refetched row with `refetchAll`. */
  function InsertCore(d: Driver, up: Hooks, row: Row, entity: Option<Entity>, refetchAll: bool): (r: Result<Row, Error>)
    ensures var ins := InsertStatement(up, row, entity);
      var n := EvaluateUpdateExpression(d, ins.0, ins.1);
      && (n.Failure? ==> r == Failure(n.error))
      && (n.Success? && n.value != 1 ==> r == Failure(OperationDidNotAffectOne))
      && (n == Success(1) && entity.None? ==> r == Success(row))
      && (n == Success(1) && entity.Some? && !refetchAll ==> r == PrimaryKey(d, up, entity.value, row))
      && (n == Success(1) && entity.Some? && PrimaryKey(d, up, entity.value, row).Failure? ==> r == PrimaryKey(d, up, entity.value, row))
      && (n == Success(1) && entity.Some? && refetchAll && PrimaryKey(d, up, entity.value, row).Success? ==>
            r == Refetch(d, up, entity.value, row, PrimaryKey(d, up, entity.value, row).value))
  {
    var ins := InsertStatement(up, row, entity);
    var n := EvaluateUpdateExpression(d, ins.0, ins.1);
    if n.Failure? then Failure(n.error)
    else if n.value != 1 then Failure(OperationDidNotAffectOne)
    else if entity.None? then Success(row)
    else
      var pkey := PrimaryKey(d, up, entity.value, row);
      if pkey.Failure? || !refetchAll then pkey
      else Refetch(d, up, entity.value, row, pkey.value)
  }

  /** `insertRow` over the channel's transaction state: the result and the state afterwards. */
  function InsertT(d: Driver, up: Hooks, st: TxState, row: Row, entity: Option<Entity>, refetchAll: bool): (r: (Result<Row, Error>, TxState))
    // refetchAll without an entity throws before any transaction call or statement
    ensures refetchAll && entity.None? ==> r == (Failure(InsertRefetchRequiresEntity), st)
    // a transaction already in progress is neither committed nor rolled back
    ensures !(refetchAll && entity.None?) && st.tx.Some? ==> r == (InsertCore(d, up, row, entity, refetchAll), st)
    // a failed begin is thrown and nothing runs
    ensures !(refetchAll && entity.None?) && st.tx.None? && BeginT(d, st).0.Thrown? ==>
      r == (Failure(BeginT(d, st).0.error), BeginT(d, st).1)
    ensures !(refetchAll && entity.None?) && st.tx.None? && BeginT(d, st).0 == Pass ==>
      var core := InsertCore(d, up, row, entity, refetchAll);
      var commit := CommitT(d, BeginT(d, st).1);
      // the transaction the call opened is closed, whatever happens
      && r.1.tx.None?
      && r.1.stats.txBeginCount == st.stats.txBeginCount + 1
      // success exactly when the body and the commit succeed; the result is the body's
      && (r.0.Success? <==> core.Success? && commit.0 == Pass)
      && (r.0.Success? ==> r.0 == core)
      // a body failure rolls back, ignoring rollback errors, rethrows its own error and never commits
      && (core.Failure? ==> r.0 == core && r.1 == RollbackT(d, BeginT(d, st).1).1)
      && (core.Failure? ==> r.1.stats.txCommitCount == st.stats.txCommitCount)
      // a body success commits and never rolls back; a commit error is thrown
      && (core.Success? ==> r.1 == commit.1 && r.1.stats.txRollbackCount == st.stats.txRollbackCount)
      && (core.Success? && commit.0.Thrown? ==> r.0 == Failure(commit.0.error))
  {
    if refetchAll && entity.None? then (Failure(InsertRefetchRequiresEntity), st)
    else if st.tx.Some? then (InsertCore(d, up, row, entity, refetchAll), st)
    else
      var begin := BeginT(d, st);
      if begin.0.Thrown? then (Failure(begin.0.error), begin.1)
      else
        EndRules(d, begin.1);
        var core := InsertCore(d, up, row, entity, refetchAll);
        if core.Failure? then (core, RollbackT(d, begin.1).1)
        else
          var commit := CommitT(d, begin.1);
          if commit.0.Thrown? then (Failure(commit.0.error), commit.1) else (core, commit.1)
  }

  /** `APRSQLite3AdaptorChannel.insertRow` on a channel. */
  method InsertRow(ch: AdaptorChannel, up: Hooks, row: Row, entity: Option<Entity>, refetchAll: bool) returns (r: Result<Row, Error>)
    modifies ch
    ensures (r, TxState(ch.tx, ch.statistics)) == InsertT(ch.driver, up, TxState(old(ch.tx), old(ch.statistics)), row, entity, refetchAll)
    ensures ch.connectionCloses == old(ch.connectionCloses) && ch.poolDestroys == old(ch.poolDestroys)
  {
    if refetchAll && entity.None? {
      return Failure(InsertRefetchRequiresEntity);
    }
    var didOpenTx := false;
    if !ch.IsTransactionInProgress() {
      var begun := ch.Begin();
      if begun.Thrown? {
        return Failure(begun.error);
      }
      didOpenTx := true;
    }
    var result := InsertCore(ch.driver, up, row, entity, refetchAll);
    if result.Failure? {
      if didOpenTx {
        var _ := ch.Rollback();
      }
      return result;
    }
    if didOpenTx {
      var committed := ch.Commit();
      if committed.Thrown? {
        return Failure(committed.error);
      }
    }
    r := result;
  }
}
