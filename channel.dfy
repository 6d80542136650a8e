/** `APRAdaptorChannel`: the transaction state machine, ownership of the pool and connection,
    row streaming, plain and prepared statements. */
module Channel {
  import opened Wrappers
  import opened ZeeQL
  import opened Text
  import opened Dbd
  import opened ValueDecoder
  import opened RowStream
  import opened SQLExpression

  /** Which channel class: the generic one, `APRSQLite3AdaptorChannel` or `APRPostgreSQLAdaptorChannel`. */
  datatype ChannelKind = GenericChannel | SQLite3Channel | PostgreSQLChannel

  /** The reflection helper a channel class delegates to. */
  datatype ModelFetcher = SQLite3ModelFetch | PostgreSQLModelFetch

  /** Which reflection helper a channel has: none for the generic channel. */
  function ModelFetcherFor(kind: ChannelKind): (f: Option<ModelFetcher>)
    ensures f.None? <==> kind == GenericChannel
    ensures f == Some(SQLite3ModelFetch) <==> kind == SQLite3Channel
  {
    match kind
    case GenericChannel => None
    case SQLite3Channel => Some(SQLite3ModelFetch)
    case PostgreSQLChannel => Some(PostgreSQLModelFetch)
  }

  /** `describeTableNames`, `describeSequenceNames`, `describeDatabaseNames` and
      `describeEntityWithTableName`: the generic channel throws `AdaptorChannelError.NotImplemented` with the
      operation's name; the subclasses hand the call to their helper. */
  function Describe(kind: ChannelKind, operation: string): (r: Result<ModelFetcher, Error>)
    ensures r.Failure? <==> kind == GenericChannel
    ensures r.Failure? ==> r.error == ChannelNotImplemented(operation)
    ensures r.Success? ==> ModelFetcherFor(kind) == Some(r.value)
  {
    match ModelFetcherFor(kind)
    case None => Failure(ChannelNotImplemented(operation))
    case Some(f) => Success(f)
  }

  // ---- transactions

  /** `Statistics` without the wall-clock fields. */
  datatype Statistics = Statistics(txBeginCount: nat, txCommitCount: nat, txRollbackCount: nat)

  /** The transaction handle and the counters. */
  datatype TxState = TxState(tx: Option<TxHandle>, stats: Statistics)

  /** The error `APRDBDError` built from a status and the driver's message for it. */
  function DriverError(d: Driver, rc: int): Error {
    APRDBDError(rc, d.error(rc))
  }

  /** `begin`. The driver writes the handle even when it reports a failure. */
  function BeginT(d: Driver, st: TxState): (r: (Outcome<Error>, TxState)) {
    if st.tx.Some? then (Thrown(TransactionInProgress), st)
    else
      var reply := d.transactionStart;
      if reply.rc != 0 then (Thrown(DriverError(d, reply.rc)), st.(tx := reply.handle))
      else (Pass, TxState(reply.handle, st.stats.(txBeginCount := st.stats.txBeginCount + 1)))
  }

  /** `_endTransaction(mode:)`: the outcome and the handle afterwards. */
  function EndT(d: Driver, tx: Option<TxHandle>, mode: int): (r: (Outcome<Error>, Option<TxHandle>))
    ensures r.1.None?
    ensures tx.None? ==> r.0 == Pass
    ensures tx.Some? && d.transactionModeSet(tx.value, mode) != mode ==> r.0 == Pass
    ensures r.0.Thrown? <==>
      tx.Some? && d.transactionModeSet(tx.value, mode) == mode && d.transactionEnd(tx.value) != 0
  {
    if tx.None? then (Pass, None)
    else if d.transactionModeSet(tx.value, mode) != mode then
      (Pass, None)  // the status of transaction_end is dropped
    else
      var rc := d.transactionEnd(tx.value);
      if rc != 0 then (Thrown(DriverError(d, rc)), None) else (Pass, None)
  }

  /** `commit`: the counter is raised whenever `_endTransaction` does not throw. */
  function CommitT(d: Driver, st: TxState): (r: (Outcome<Error>, TxState)) {
    var e := EndT(d, st.tx, TRANSACTION_COMMIT);
    if e.0.Thrown? then (e.0, st.(tx := e.1))
    else (Pass, TxState(e.1, st.stats.(txCommitCount := st.stats.txCommitCount + 1)))
  }

  /** `rollback`, likewise. */
  function RollbackT(d: Driver, st: TxState): (r: (Outcome<Error>, TxState)) {
    var e := EndT(d, st.tx, TRANSACTION_ROLLBACK);
    if e.0.Thrown? then (e.0, st.(tx := e.1))
    else (Pass, TxState(e.1, st.stats.(txRollbackCount := st.stats.txRollbackCount + 1)))
  }

  /** `begin` with a transaction open throws and changes nothing; otherwise it takes the driver's
      handle and raises the begin counter by one exactly when the driver reports success. */
  lemma BeginRules(d: Driver, st: TxState)
    ensures st.tx.Some? ==> BeginT(d, st) == (Thrown(TransactionInProgress), st)
    ensures BeginT(d, st).0 == Pass <==> st.tx.None? && d.transactionStart.rc == 0
    ensures BeginT(d, st).0 == Pass ==>
      BeginT(d, st).1 == TxState(d.transactionStart.handle, st.stats.(txBeginCount := st.stats.txBeginCount + 1))
    ensures BeginT(d, st).0 != Pass ==> BeginT(d, st).1.stats == st.stats
  {
  }

  /** A second `begin` right after a successful one throws `TransactionInProgress`, provided the
      driver handed out a handle. */
  lemma BeginTwiceFails(d: Driver, st: TxState)
    requires BeginT(d, st).0 == Pass && d.transactionStart.handle.Some?
    ensures BeginT(d, BeginT(d, st).1) == (Thrown(TransactionInProgress), BeginT(d, st).1)
  {
  }

  /** `commit` and `rollback` leave no transaction behind, whether they throw or not; without
      an open transaction they do not throw and, as written, still count. */
  lemma EndRules(d: Driver, st: TxState)
    ensures CommitT(d, st).1.tx.None? && RollbackT(d, st).1.tx.None?
    ensures st.tx.None? ==> CommitT(d, st) == (Pass, st.(stats := st.stats.(txCommitCount := st.stats.txCommitCount + 1)))
    ensures st.tx.None? ==> RollbackT(d, st) == (Pass, st.(stats := st.stats.(txRollbackCount := st.stats.txRollbackCount + 1)))
    ensures CommitT(d, st).0.Thrown? ==> CommitT(d, st).1.stats == st.stats
    ensures RollbackT(d, st).0.Thrown? ==> RollbackT(d, st).1.stats == st.stats
  {
  }

  datatype TxOp = BeginOp | CommitOp | RollbackOp

  function Apply(d: Driver, st: TxState, op: TxOp): (Outcome<Error>, TxState) {
    match op
    case BeginOp => BeginT(d, st)
    case CommitOp => CommitT(d, st)
    case RollbackOp => RollbackT(d, st)
  }

  /** The states after each call of a sequence of transaction calls, whatever each one threw. */
  function Run(d: Driver, st: TxState, ops: seq<TxOp>): TxState
    decreases |ops|
  {
    if ops == [] then st else Run(d, Apply(d, st, ops[0]).1, ops[1..])
  }

  /** How many of the calls were `op` calls that did not throw (counted along the run). */
  function Passed(d: Driver, st: TxState, ops: seq<TxOp>, op: TxOp): nat
    decreases |ops|
  {
    if ops == [] then 0
    else
      var a := Apply(d, st, ops[0]);
      (if ops[0] == op && a.0 == Pass then 1 else 0) + Passed(d, a.1, ops[1..], op)
  }

  /** Over any sequence of calls each counter rises by exactly the number of its calls that did not
      throw: begins that opened a transaction, and commits and rollbacks including those with no
      transaction open. */
  lemma {:induction false} CountersAlongRun(d: Driver, st: TxState, ops: seq<TxOp>)
    ensures Run(d, st, ops).stats.txBeginCount == st.stats.txBeginCount + Passed(d, st, ops, BeginOp)
    ensures Run(d, st, ops).stats.txCommitCount == st.stats.txCommitCount + Passed(d, st, ops, CommitOp)
    ensures Run(d, st, ops).stats.txRollbackCount == st.stats.txRollbackCount + Passed(d, st, ops, RollbackOp)
    decreases |ops|
  {
    if ops != [] {
      BeginRules(d, st);
      EndRules(d, st);
      CountersAlongRun(d, Apply(d, st, ops[0]).1, ops[1..]);
    }
  }

  // ---- plain statements, selects and prepared statements

  /** `performSQL`. */
  function PerformSQL(d: Driver, sql: string): (r: Result<int, Error>)
    ensures r.Failure? <==> d.query(sql).rc != APR_SUCCESS
    ensures r.Failure? ==> r.error == DriverError(d, d.query(sql).rc)
    ensures r.Success? ==> r.value == d.query(sql).affected
  {
    var reply := d.query(sql);
    if reply.rc != APR_SUCCESS then Failure(DriverError(d, reply.rc)) else Success(reply.affected)
  }

  /** Errors out of the fetch loop are wrapped with the statement. */
  function WrapFetch<S>(sql: string, r: Result<S, Error>): Result<S, Error> {
    match r
    case Failure(e) => Failure(QueryFailed(sql, e))
    case Success(s) => Success(s)
  }

  /** `querySQL`, with the select failure reported with the select's status. */
  function QuerySQL<S>(d: Driver, sql: string, attrs: Option<seq<Attribute>>, cb: Callback<S>, s0: S): Result<S, Error> {
    if d.subpoolStatus != APR_SUCCESS then Failure(APRError(d.subpoolStatus))
    else
      var reply := d.select(sql);
      if reply.rc != APR_SUCCESS || reply.results.None? then Failure(QueryFailed(sql, APRError(reply.rc)))
      else WrapFetch(sql, Fetch(reply.results.value, attrs, cb, s0))
  }

  /** `querySQL` as written: a failed select is reported with the status of the pool creation,
      which is `APR_SUCCESS` at that point. */
  function QuerySQLAsWritten<S>(d: Driver, sql: string, attrs: Option<seq<Attribute>>, cb: Callback<S>, s0: S): Result<S, Error> {
    var reply := d.select(sql);
    if d.subpoolStatus == APR_SUCCESS && (reply.rc != APR_SUCCESS || reply.results.None?) then
      Failure(QueryFailed(sql, APRError(d.subpoolStatus)))
    else QuerySQL(d, sql, attrs, cb, s0)
  }

  /** A select the driver rejects with status 1 comes out of the as-written `querySQL` as
      `APRError(0)`, the success code; the corrected one reports 1. */
  lemma QuerySQLLosesSelectStatus<S>(d: Driver, sql: string, attrs: Option<seq<Attribute>>, cb: Callback<S>, s0: S)
    requires d.subpoolStatus == APR_SUCCESS && d.select(sql).rc == 1
    ensures QuerySQLAsWritten(d, sql, attrs, cb, s0) == Failure(QueryFailed(sql, APRError(APR_SUCCESS)))
    ensures QuerySQL(d, sql, attrs, cb, s0) == Failure(QueryFailed(sql, APRError(1)))
  {
  }

  /** What `querySQL` does with a result: the callback sees the records in cursor order; an error it
      throws, or a driver error that is not end of data, comes out as `QueryFailed` for the
      statement; a failed select carries the select's status. */
  lemma QuerySQLOutcome<S>(d: Driver, sql: string, attrs: Option<seq<Attribute>>, cb: Callback<S>, s0: S)
    requires d.subpoolStatus == APR_SUCCESS
    ensures var reply := d.select(sql);
      reply.rc != APR_SUCCESS || reply.results.None? ==>
        QuerySQL(d, sql, attrs, cb, s0) == Failure(QueryFailed(sql, APRError(reply.rc)))
    ensures var reply := d.select(sql);
      reply.rc == APR_SUCCESS && reply.results.Some? ==>
        var rs := reply.results.value;
        var stop := rs.steps[StopIndex(rs, 0)];
        match FoldRecords(cb, s0, RecordsFrom(rs, attrs, 0))
        case Failure(e) => QuerySQL(d, sql, attrs, cb, s0) == Failure(QueryFailed(sql, e))
        case Success(s) =>
          QuerySQL(d, sql, attrs, cb, s0) ==
            if IsEndOfData(stop.rc, stop.message) then Success(s)
            else Failure(QueryFailed(sql, APRDBDError(stop.rc, stop.message)))
  {
    var reply := d.select(sql);
    if reply.rc == APR_SUCCESS && reply.results.Some? {
      FetchIsFold(reply.results.value, attrs, cb, s0);
    }
  }

  /** The text argument for one bind value. */
  function BindArgument(value: Option<Value>): string {
    match value
    case None => ""
    case Some(Str(s)) => s
    case Some(GlobalId(id)) => Decimal(id)
    case Some(Integer(_, n)) => Decimal(n)
    case Some(Real(_, description)) => description
    case Some(Date(description)) => description
    case Some(QualifierVariable(_, description)) => description
    case Some(Other(description)) => description
  }

  /** The text arguments of a bind list, one per bind and in bind order. */
  function BindArguments(binds: seq<BindVariable>): (args: seq<string>)
    ensures |args| == |binds|
    ensures forall k :: 0 <= k < |binds| ==> args[k] == BindArgument(binds[k].value)
  {
    seq(|binds|, k requires 0 <= k < |binds| => BindArgument(binds[k].value))
  }

  /** nil becomes the empty string, a string is passed verbatim, and a global id or an integer is
      passed in a decimal form that reads back as the same number. */
  lemma BindArgumentRules(value: Option<Value>)
    ensures value.None? ==> BindArgument(value) == ""
    ensures value.Some? && value.value.Str? ==> BindArgument(value) == value.value.s
    ensures value.Some? && value.value.GlobalId? ==> ParseDecimal(BindArgument(value)) == value.value.id
    ensures value.Some? && value.value.Integer? ==> ParseDecimal(BindArgument(value)) == value.value.n
  {
    if value.Some? && value.value.GlobalId? {
      DecimalRoundTrip(value.value.id);
    }
    if value.Some? && value.value.Integer? {
      DecimalRoundTrip(value.value.n);
    }
  }

  /** `evaluateQueryExpression`, with the pselect failure reported with the pselect's status. */
  function EvaluateQueryExpression<S>(d: Driver, statement: string, binds: seq<BindVariable>, attrs: Option<seq<Attribute>>,
                                      cb: Callback<S>, s0: S): (r: Result<S, Error>)
    ensures binds == [] ==> r == QuerySQL(d, statement, attrs, cb, s0)
    ensures binds != [] && d.subpoolStatus != APR_SUCCESS ==> r == Failure(APRError(d.subpoolStatus))
    ensures binds != [] && d.subpoolStatus == APR_SUCCESS && !(d.prepare(statement).rc == 0 && d.prepare(statement).prepared) ==>
      r == Failure(APRError(d.prepare(statement).rc))
  {
    if binds == [] then QuerySQL(d, statement, attrs, cb, s0)
    else if d.subpoolStatus != APR_SUCCESS then Failure(APRError(d.subpoolStatus))
    else
      var p := d.prepare(statement);
      if p.rc != 0 || !p.prepared then Failure(APRError(p.rc))
      else
        var reply := d.pselect(statement, BindArguments(binds));
        if reply.rc != 0 || reply.results.None? then Failure(APRError(reply.rc))
        else WrapFetch(statement, Fetch(reply.results.value, attrs, cb, s0))
  }

  /** `evaluateQueryExpression` as written: a failed pselect is reported with the status of the
      prepare, which is 0 at that point. */
  function EvaluateQueryExpressionAsWritten<S>(d: Driver, statement: string, binds: seq<BindVariable>, attrs: Option<seq<Attribute>>,
                                               cb: Callback<S>, s0: S): Result<S, Error> {
    var p := d.prepare(statement);
    var reply := d.pselect(statement, BindArguments(binds));
    if binds != [] && d.subpoolStatus == APR_SUCCESS && p.rc == 0 && p.prepared && (reply.rc != 0 || reply.results.None?) then
      Failure(APRError(p.rc))
    else EvaluateQueryExpression(d, statement, binds, attrs, cb, s0)
  }

  /** `evaluateUpdateExpression`, with the pquery failure reported with the pquery's status. */
  function EvaluateUpdateExpression(d: Driver, statement: string, binds: seq<BindVariable>): (r: Result<int, Error>)
    ensures binds == [] ==> r == PerformSQL(d, statement)
    ensures binds != [] && d.subpoolStatus != APR_SUCCESS ==> r == Failure(APRError(d.subpoolStatus))
    ensures binds != [] && d.subpoolStatus == APR_SUCCESS && !(d.prepare(statement).rc == 0 && d.prepare(statement).prepared) ==>
      r == Failure(APRError(d.prepare(statement).rc))
    ensures binds != [] && r.Success? ==> r.value == d.pquery(statement, BindArguments(binds)).affected
  {
    if binds == [] then PerformSQL(d, statement)
    else if d.subpoolStatus != APR_SUCCESS then Failure(APRError(d.subpoolStatus))
    else
      var p := d.prepare(statement);
      if p.rc != 0 || !p.prepared then Failure(APRError(p.rc))
      else
        var reply := d.pquery(statement, BindArguments(binds));
        if reply.rc != 0 then Failure(APRError(reply.rc)) else Success(reply.affected)
  }

  /** `evaluateUpdateExpression` as written: a failed pquery is reported with the prepare's status, 0. */
  function EvaluateUpdateExpressionAsWritten(d: Driver, statement: string, binds: seq<BindVariable>): Result<int, Error> {
    var p := d.prepare(statement);
    if binds != [] && d.subpoolStatus == APR_SUCCESS && p.rc == 0 && p.prepared && d.pquery(statement, BindArguments(binds)).rc != 0 then
      Failure(APRError(p.rc))
    else EvaluateUpdateExpression(d, statement, binds)
  }

  /** A prepared select or update that the driver rejects with status 1 is reported as
      `APRError(0)` as written, and as `APRError(1)` when corrected. */
  lemma PreparedFailureLosesStatus<S>(d: Driver, statement: string, binds: seq<BindVariable>, attrs: Option<seq<Attribute>>,
                                      cb: Callback<S>, s0: S)
    requires binds != [] && d.subpoolStatus == APR_SUCCESS
    requires d.prepare(statement) == PrepareReply(0, true)
    requires d.pselect(statement, BindArguments(binds)).rc == 1 && d.pquery(statement, BindArguments(binds)).rc == 1
    ensures EvaluateQueryExpressionAsWritten(d, statement, binds, attrs, cb, s0) == Failure(APRError(0))
    ensures EvaluateQueryExpression(d, statement, binds, attrs, cb, s0) == Failure(APRError(1))
    ensures EvaluateUpdateExpressionAsWritten(d, statement, binds) == Failure(APRError(0))
    ensures EvaluateUpdateExpression(d, statement, binds) == Failure(APRError(1))
  {
  }

  /** With binds, a prepared select hands the driver one text argument per bind, in bind order, and
      streams the result exactly as `querySQL` does. */
  lemma PreparedSelectStreams<S>(d: Driver, statement: string, binds: seq<BindVariable>, attrs: Option<seq<Attribute>>,
                                 cb: Callback<S>, s0: S)
    requires binds != [] && d.subpoolStatus == APR_SUCCESS && d.prepare(statement) == PrepareReply(0, true)
    requires var reply := d.pselect(statement, BindArguments(binds)); reply.rc == 0 && reply.results.Some?
    ensures var rs := d.pselect(statement, BindArguments(binds)).results.value;
      var stop := rs.steps[StopIndex(rs, 0)];
      EvaluateQueryExpression(d, statement, binds, attrs, cb, s0) ==
        WrapFetch(statement, Finish(FoldRecords(cb, s0, RecordsFrom(rs, attrs, 0)), stop.rc, stop.message))
  {
    FetchIsFold(d.pselect(statement, BindArguments(binds)).results.value, attrs, cb, s0);
  }

  /** The cursor a query expression streams when every driver call before the fetch succeeds:
      the plain select without binds, the prepared select with them. */
  function CursorFor(d: Driver, statement: string, binds: seq<BindVariable>): Option<Cursor> {
    if d.subpoolStatus != APR_SUCCESS then None
    else if binds == [] then
      var reply := d.select(statement);
      if reply.rc != APR_SUCCESS then None else reply.results
    else
      var p := d.prepare(statement);
      if p.rc != 0 || !p.prepared then None
      else
        var reply := d.pselect(statement, BindArguments(binds));
        if reply.rc != 0 then None else reply.results
  }

  /** Either the driver fails before the fetch, and the callback plays no part, or the expression
      streams its cursor, with errors wrapped in `QueryFailed` for the statement. */
  lemma EvaluateQueryUsesCursor<S>(d: Driver, statement: string, binds: seq<BindVariable>, attrs: Option<seq<Attribute>>,
                                   cb: Callback<S>, cb': Callback<S>, s0: S)
    ensures CursorFor(d, statement, binds).Some? ==>
      EvaluateQueryExpression(d, statement, binds, attrs, cb, s0) ==
        WrapFetch(statement, Fetch(CursorFor(d, statement, binds).value, attrs, cb, s0))
    ensures CursorFor(d, statement, binds).None? ==>
      EvaluateQueryExpression(d, statement, binds, attrs, cb, s0).Failure? &&
      EvaluateQueryExpression(d, statement, binds, attrs, cb, s0) == EvaluateQueryExpression(d, statement, binds, attrs, cb', s0)
  {
  }

  /** The callback of both insert-and-refetch strategies: keeps the first record and throws
      `FailedToRefetchInsertedRow` at a second one. */
  function OneRecord(entity: Option<Entity>, row: Row): Callback<Option<Record>> {
    (seen: Option<Record>, r: Record) =>
      if seen.Some? then Failure(FailedToRefetchInsertedRow(entity, row)) else Success(Some(r))
  }

  /** Folded over the records: nothing for none, the record for one, the error for more. */
  lemma OneRecordFold(entity: Option<Entity>, row: Row, recs: seq<Record>)
    ensures |recs| == 0 ==> FoldRecords(OneRecord(entity, row), None, recs) == Success(None)
    ensures |recs| == 1 ==> FoldRecords(OneRecord(entity, row), None, recs) == Success(Some(recs[0]))
    ensures |recs| >= 2 ==> FoldRecords(OneRecord(entity, row), None, recs) == Failure(FailedToRefetchInsertedRow(entity, row))
  {
    var cb := OneRecord(entity, row);
    if |recs| == 1 {
      assert recs[1..] == [];
    }
    if |recs| >= 2 {
      assert cb(None, recs[0]) == Success(Some(recs[0]));
      assert cb(Some(recs[0]), recs[1..][0]) == Failure(FailedToRefetchInsertedRow(entity, row));
    }
  }

  /** The outcome of a single-record refetch over a cursor: the record when there is exactly one and
      the cursor ends at end of data; `FailedToRefetchInsertedRow` for none, wrapped in
      `QueryFailed` for a second one, which the callback throws inside the fetch. */
  lemma OneRecordFetch(rs: Cursor, attrs: Option<seq<Attribute>>, entity: Option<Entity>, row: Row, statement: string)
    ensures var recs := RecordsFrom(rs, attrs, 0);
      var stop := rs.steps[StopIndex(rs, 0)];
      var r := WrapFetch(statement, Fetch(rs, attrs, OneRecord(entity, row), None));
      && (r.Success? && r.value.Some? <==> |recs| == 1 && IsEndOfData(stop.rc, stop.message))
      && (r.Success? && r.value.Some? ==> r.value.value == recs[0])
      && (r.Success? && r.value.None? <==> |recs| == 0 && IsEndOfData(stop.rc, stop.message))
      && (|recs| >= 2 ==> r == Failure(QueryFailed(statement, FailedToRefetchInsertedRow(entity, row))))
      && (|recs| < 2 && !IsEndOfData(stop.rc, stop.message) ==> r == Failure(QueryFailed(statement, APRDBDError(stop.rc, stop.message))))
  {
    FetchIsFold(rs, attrs, OneRecord(entity, row), None);
    OneRecordFold(entity, row, RecordsFrom(rs, attrs, 0));
  }

  // ---- the channel object

  class AdaptorChannel {
    const kind: ChannelKind
    const driver: Driver
    const expressionFactory: FactoryKind
    const ownsPool: bool
    const ownsConnection: bool
    var tx: Option<TxHandle>
    var statistics: Statistics
    /** How many times the channel called `apr_dbd_close` and `apr_pool_destroy`. */
    var connectionCloses: nat
    var poolDestroys: nat

    constructor (kind: ChannelKind, driver: Driver, expressionFactory: FactoryKind, ownsPool: bool, ownsConnection: bool)
      ensures this.kind == kind && this.driver == driver && this.expressionFactory == expressionFactory
      ensures this.ownsPool == ownsPool && this.ownsConnection == ownsConnection
      ensures tx.None? && statistics == Statistics(0, 0, 0)
      ensures connectionCloses == 0 && poolDestroys == 0
    {
      this.kind := kind;
      this.driver := driver;
      this.expressionFactory := expressionFactory;
      this.ownsPool := ownsPool;
      this.ownsConnection := ownsConnection;
      tx := None;
      statistics := Statistics(0, 0, 0);
      connectionCloses := 0;
      poolDestroys := 0;
    }

    /** `isTransactionInProgress`. */
    predicate IsTransactionInProgress()
      reads this
    {
      tx.Some?
    }

    /** `close`: closes the connection only when the channel owns it. */
    method Close()
      modifies this
      ensures connectionCloses == old(connectionCloses) + (if ownsConnection then 1 else 0)
      ensures tx == old(tx) && statistics == old(statistics) && poolDestroys == old(poolDestroys)
    {
      if ownsConnection {
        connectionCloses := connectionCloses + 1;
      }
    }

    /** `deinit`: destroys the pool only when the channel owns it. */
    method Deinit()
      modifies this
      ensures poolDestroys == old(poolDestroys) + (if ownsPool then 1 else 0)
      ensures tx == old(tx) && statistics == old(statistics) && connectionCloses == old(connectionCloses)
    {
      if ownsPool {
        poolDestroys := poolDestroys + 1;
      }
    }

    method Begin() returns (o: Outcome<Error>)
      modifies this
      ensures (o, TxState(tx, statistics)) == BeginT(driver, TxState(old(tx), old(statistics)))
      ensures connectionCloses == old(connectionCloses) && poolDestroys == old(poolDestroys)
    {
      if tx.Some? {
        return Thrown(TransactionInProgress);
      }
      var reply := driver.transactionStart;
      tx := reply.handle;
      if reply.rc != 0 {
        return Thrown(DriverError(driver, reply.rc));
      }
      statistics := statistics.(txBeginCount := statistics.txBeginCount + 1);
      o := Pass;
    }

    method EndTransaction(mode: int) returns (o: Outcome<Error>)
      modifies this
      ensures (o, tx) == EndT(driver, old(tx), mode)
      ensures statistics == old(statistics)
      ensures connectionCloses == old(connectionCloses) && poolDestroys == old(poolDestroys)
    {
      if tx.None? {
        return Pass;
      }
      var activeMode := driver.transactionModeSet(tx.value, mode);
      if activeMode != mode {
        var _ := driver.transactionEnd(tx.value);
        tx := None;
        return Pass;
      }
      var rc := driver.transactionEnd(tx.value);
      tx := None;
      if rc != 0 {
        return Thrown(DriverError(driver, rc));
      }
      o := Pass;
    }

    method Commit() returns (o: Outcome<Error>)
      modifies this
      ensures (o, TxState(tx, statistics)) == CommitT(driver, TxState(old(tx), old(statistics)))
      ensures connectionCloses == old(connectionCloses) && poolDestroys == old(poolDestroys)
    {
      o := EndTransaction(TRANSACTION_COMMIT);
      if o.Thrown? {
        return;
      }
      statistics := statistics.(txCommitCount := statistics.txCommitCount + 1);
    }

    method Rollback() returns (o: Outcome<Error>)
      modifies this
      ensures (o, TxState(tx, statistics)) == RollbackT(driver, TxState(old(tx), old(statistics)))
      ensures connectionCloses == old(connectionCloses) && poolDestroys == old(poolDestroys)
    {
      o := EndTransaction(TRANSACTION_ROLLBACK);
      if o.Thrown? {
        return;
      }
      statistics := statistics.(txRollbackCount := statistics.txRollbackCount + 1);
    }

    /** `fetchRows`: pulls rows until the driver reports a non-zero status, building the name schema
        at the first row when no attributes were given, and hands each record to the callback. */
    method FetchRows<S>(rs: Cursor, optAttrs: Option<seq<Attribute>>, cb: Callback<S>, s0: S) returns (r: Result<S, Error>)
      ensures r == Fetch(rs, optAttrs, cb, s0)
    {
      var schema: Option<Schema> := None;
      if optAttrs.Some? {
        schema := Some(AttributeSchema(optAttrs.value));
      }
      var s := s0;
      var i := 0;
      while true
        invariant 0 <= i < |rs.steps|
        invariant schema.Some? ==> schema.value == ResultSchema(rs, optAttrs)
        invariant schema.None? ==> optAttrs.None?
        invariant Fetch(rs, optAttrs, cb, s0) == FetchFrom(rs, optAttrs, cb, i, s)
        decreases |rs.steps| - i
      {
        var step := rs.steps[i];
        if step.Fail? {
          var msg := step.message;
          if step.rc == -1 {
            if msg == Some("") {
              return Success(s);
            }
            if msg == Some("not an error") {
              return Success(s);
            }
          }
          return Failure(APRDBDError(step.rc, msg));
        }
        var colCount := |rs.names|;
        if schema.None? {
          var names: seq<string> := [];
          var colIdx := 0;
          while colIdx < colCount
            invariant 0 <= colIdx <= colCount
            invariant |names| == colIdx
            invariant forall k :: 0 <= k < colIdx ==> names[k] == ColumnName(rs.names, k)
          {
            if rs.names[colIdx].Some? {
              names := names + [rs.names[colIdx].value];
            } else {
              names := names + ["col[" + Decimal(colIdx) + "]"];
            }
            colIdx := colIdx + 1;
          }
          assert names == seq(|rs.names|, k requires 0 <= k < |rs.names| => ColumnName(rs.names, k));
          schema := Some(NameSchema(names));
        }
        var values: seq<Option<Value>> := [];
        var colIdx := 0;
        while colIdx < colCount
          invariant 0 <= colIdx <= colCount
          invariant |values| == colIdx
          invariant forall k :: 0 <= k < colIdx ==> values[k] == ValueIn(step.cells[k], AttributeAt(optAttrs, k))
        {
          var attr: Option<Attribute> := None;
          if optAttrs.Some? && colIdx < |optAttrs.value| {
            attr := Some(optAttrs.value[colIdx]);
          }
          values := values + [ValueIn(step.cells[colIdx], attr)];
          colIdx := colIdx + 1;
        }
        var record := Record(schema.value, values);
        assert values == DecodeRow(rs, optAttrs, step.cells).values;
        var res := cb(s, record);
        if res.Failure? {
          return Failure(res.error);
        }
        s := res.value;
        i := i + 1;
      }
    }

    /** `cStringsForBindVariables`: null for no binds, else an array with one text argument per
        bind, in bind order. */
    method CStringsForBindVariables(binds: seq<BindVariable>) returns (args: array?<string>)
      ensures args == null <==> binds == []
      ensures args != null ==> fresh(args) && args[..] == BindArguments(binds)
    {
      if binds == [] {
        return null;
      }
      args := new string[|binds|];
      var k := 0;
      while k < |binds|
        invariant 0 <= k <= |binds|
        invariant forall j :: 0 <= j < k ==> args[j] == BindArgument(binds[j].value)
      {
        args[k] := BindArgument(binds[k].value);
        k := k + 1;
      }
    }
  }
}
