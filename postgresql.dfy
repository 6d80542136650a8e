/** The PostgreSQL adaptor: the key=value connect string, and insert with
    `INSERT ... RETURNING` that requires exactly one returned record. */
module PostgreSQL {
  import opened Wrappers
  import opened ZeeQL
  import opened Text
  import opened Dbd
  import opened RowStream
  import opened Upstream
  import opened SQLExpression
  import opened Channel

  // ---- connect string

  /** The parameters present in a connect string, in order: empties and a non-positive port are left out. */
  function ConnectParams(host: string, port: int, database: string, user: string, password: string): seq<(string, string)> {
    Opt(host != "", "host", host) + Opt(port > 0, "port", Decimal(port)) + Opt(database != "", "dbname", database) +
    Opt(user != "", "user", user) + Opt(password != "", "password", password)
  }

  function Opt(present: bool, key: string, value: string): seq<(string, string)> {
    if present then [(key, value)] else []
  }

  /** ` key=value` for each parameter. */
  function RenderParams(ps: seq<(string, string)>): string {
    if ps == [] then "" else Fragment(ps[0].0, ps[0].1) + RenderParams(ps[1..])
  }

  function ConnectStringOf(host: string, port: int, database: string, user: string, password: string): string {
    RenderParams(ConnectParams(host, port, database, user, password))
  }

  /** The `init`'s connect string, built one fragment at a time. */
  method ConnectString(host: string, port: int, database: string, user: string, password: string) returns (s: string)
    ensures s == ConnectStringOf(host, port, database, user, password)
  {
    s := "";
    ghost var ps: seq<(string, string)> := [];
    if host != "" { s := s + Fragment("host", host); }
    RenderOpt(ps, host != "", "host", host);
    ps := ps + Opt(host != "", "host", host);
    assert s == RenderParams(ps);
    if port > 0 { s := s + Fragment("port", Decimal(port)); }
    RenderOpt(ps, port > 0, "port", Decimal(port));
    ps := ps + Opt(port > 0, "port", Decimal(port));
    assert s == RenderParams(ps);
    if database != "" { s := s + Fragment("dbname", database); }
    RenderOpt(ps, database != "", "dbname", database);
    ps := ps + Opt(database != "", "dbname", database);
    assert s == RenderParams(ps);
    if user != "" { s := s + Fragment("user", user); }
    RenderOpt(ps, user != "", "user", user);
    ps := ps + Opt(user != "", "user", user);
    assert s == RenderParams(ps);
    if password != "" { s := s + Fragment("password", password); }
    RenderOpt(ps, password != "", "password", password);
    ps := ps + Opt(password != "", "password", password);
    assert s == RenderParams(ps);
    assert [] + Opt(host != "", "host", host) == Opt(host != "", "host", host);
  }

  /** One ` key=value` fragment. */
  function Fragment(k: string, v: string): string {
    " " + k + "=" + v
  }

  lemma RenderOpt(ps: seq<(string, string)>, present: bool, k: string, v: string)
    ensures RenderParams(ps + Opt(present, k, v)) == RenderParams(ps) + (if present then Fragment(k, v) else "")
  {
    if present {
      RenderSnoc(ps, k, v);
    } else {
      assert ps + Opt(present, k, v) == ps;
      assert RenderParams(ps) + "" == RenderParams(ps);
    }
  }

  lemma {:induction false} RenderSnoc(ps: seq<(string, string)>, k: string, v: string)
    ensures RenderParams(ps + [(k, v)]) == RenderParams(ps) + Fragment(k, v)
    decreases |ps|
  {
    if ps == [] {
      assert [(k, v)][1..] == [];
    } else {
      assert (ps + [(k, v)])[0] == ps[0];
      assert (ps + [(k, v)])[1..] == ps[1..] + [(k, v)];
      RenderSnoc(ps[1..], k, v);
    }
  }

  /** The first position of `c` in `s`, or |s|. */
  function IndexOf(s: string, c: char): (i: nat)
    ensures i <= |s|
    ensures forall j :: 0 <= j < i ==> s[j] != c
    ensures i < |s| ==> s[i] == c
  {
    if s == [] then 0 else if s[0] == c then 0 else 1 + IndexOf(s[1..], c)
  }

  /** A reader of connect strings: ` key=value` fragments, a value running to the next space. */
  function ParseParams(s: string): seq<(string, string)>
    decreases |s|
  {
    if |s| == 0 || s[0] != ' ' then []
    else
      var t := s[1..];
      var e := IndexOf(t, '=');
      if e == |t| then []
      else
        var u := t[e + 1..];
        var w := IndexOf(u, ' ');
        [(t[..e], u[..w])] + ParseParams(u[w..])
  }

  predicate Plain(ps: seq<(string, string)>) {
    forall i :: 0 <= i < |ps| ==> '=' !in ps[i].0 && ' ' !in ps[i].1
  }

  lemma {:induction false} IndexOfPrefix(x: string, c: char, y: string)
    requires c !in x && (y == [] || y[0] == c)
    ensures IndexOf(x + y, c) == |x|
    decreases |x|
  {
    if x == [] {
      assert x + y == y;
    } else {
      assert (x + y)[0] == x[0];
      assert (x + y)[1..] == x[1..] + y;
      IndexOfPrefix(x[1..], c, y);
    }
  }

  /** One fragment followed by text that starts a new fragment (or nothing) reads as that pair. */
  lemma ParseFragment(k: string, v: string, rest: string)
    requires '=' !in k && ' ' !in v && (rest == [] || rest[0] == ' ')
    ensures ParseParams(Fragment(k, v) + rest) == [(k, v)] + ParseParams(rest)
  {
    var u := v + rest;
    var t := k + ("=" + u);
    assert Fragment(k, v) + rest == " " + t;
    SplitAt(k, '=', "=" + u);
    assert t[|k| + 1..] == u;
    SplitAt(v, ' ', rest);
    ParseStep(" " + t, t, u, k, v, rest);
  }

  /** One step of the reader, given where the first `=` and the next space are. */
  lemma ParseStep(s: string, t: string, u: string, k: string, v: string, rest: string)
    requires s == " " + t
    requires IndexOf(t, '=') == |k| < |t| && t[..|k|] == k && t[|k| + 1..] == u
    requires IndexOf(u, ' ') == |v| && u[..|v|] == v && u[|v|..] == rest
    ensures ParseParams(s) == [(k, v)] + ParseParams(rest)
  {
    assert s[1..] == t;
  }

  /** Splitting `x + y` at the first `c`, when `x` holds none and `y` starts with one (or is empty). */
  lemma SplitAt(x: string, c: char, y: string)
    requires c !in x && (y == [] || y[0] == c)
    ensures IndexOf(x + y, c) == |x|
    ensures (x + y)[..|x|] == x && (x + y)[|x|..] == y
  {
    IndexOfPrefix(x, c, y);
  }

  /** Reading a rendered list gives the list back, as long as no key holds `=` and no value a space. */
  lemma {:induction false} ParseRender(ps: seq<(string, string)>)
    requires Plain(ps)
    ensures ParseParams(RenderParams(ps)) == ps
    decreases |ps|
  {
    if ps != [] {
      var rest := RenderParams(ps[1..]);
      assert Plain(ps[1..]);
      assert RenderParams(ps) == Fragment(ps[0].0, ps[0].1) + rest;
      ParseFragment(ps[0].0, ps[0].1, rest);
      ParseRender(ps[1..]);
    }
  }

  /** The connect string names each given, non-empty parameter exactly once, in the order host,
      port, dbname, user, password. */
  lemma ConnectStringParams(host: string, port: int, database: string, user: string, password: string)
    requires ' ' !in host && ' ' !in database && ' ' !in user && ' ' !in password
    ensures ParseParams(ConnectStringOf(host, port, database, user, password)) == ConnectParams(host, port, database, user, password)
  {
    var ps := ConnectParams(host, port, database, user, password);
    forall i | 0 <= i < |ps|
      ensures '=' !in ps[i].0 && ' ' !in ps[i].1
    {
      if port > 0 {
        DecimalHasNoSpace(port);
      }
    }
    ParseRender(ps);
  }

  lemma DecimalHasNoSpace(n: int)
    ensures ' ' !in Decimal(n)
  {
    var d := Decimal(n);
    forall i | 0 <= i < |d|
      ensures d[i] != ' '
    {
      if n < 0 {
        if i > 0 {
          assert d[i] == NatDigits(-n)[i - 1];
        }
      } else {
        assert IsDigit(NatDigits(n)[i]);
      }
    }
  }

  lemma DefaultPort()
    ensures Decimal(5432) == "5432"
  {
    assert NatDigits(5) == "5";
    assert NatDigits(54) == "54";
    assert NatDigits(543) == "543";
  }

  function DefaultParams(): seq<(string, string)> {
    [("host", "127.0.0.1"), ("port", "5432"), ("dbname", "postgres"), ("user", "postgres")]
  }

  lemma DefaultParamsPresent()
    ensures ConnectParams("127.0.0.1", 5432, "postgres", "postgres", "") == DefaultParams()
  {
    DefaultPort();
    var ps := DefaultParams();
    assert Opt(true, "host", "127.0.0.1") + Opt(true, "port", "5432") == ps[..2];
    assert ps[..2] + Opt(true, "dbname", "postgres") == ps[..3];
    assert ps[..3] + Opt(true, "user", "postgres") + Opt(false, "password", "") == ps;
  }

  lemma DefaultParamsRendered()
    ensures RenderParams(DefaultParams()) == " host=127.0.0.1" + " port=5432" + " dbname=postgres" + " user=postgres"
  {
    var ps := DefaultParams();
    assert RenderParams(ps[4..]) == "";
    assert RenderParams(ps[3..]) == Fragment("user", "postgres");
    assert RenderParams(ps[2..]) == Fragment("dbname", "postgres") + Fragment("user", "postgres");
    assert RenderParams(ps[1..]) == Fragment("port", "5432") + (Fragment("dbname", "postgres") + Fragment("user", "postgres"));
    assert Fragment("host", "127.0.0.1") == " host=127.0.0.1";
    assert Fragment("port", "5432") == " port=5432";
    assert Fragment("dbname", "postgres") == " dbname=postgres";
    assert Fragment("user", "postgres") == " user=postgres";
  }

  /** The adaptor's defaults. */
  lemma DefaultConnectString()
    ensures ConnectStringOf("127.0.0.1", 5432, "postgres", "postgres", "") ==
      " host=127.0.0.1" + " port=5432" + " dbname=postgres" + " user=postgres"
  {
    DefaultParamsPresent();
    DefaultParamsRendered();
  }

  /** `APRPostgreSQLAdaptor` after `init`: its connect string, driver name and expression factory. */
  class PostgreSQLAdaptor {
    const connectString: string
    const driverName: string
    var expressionFactory: FactoryKind

    constructor (host: string, port: int, database: string, user: string, password: string)
      ensures connectString == ConnectStringOf(host, port, database, user, password)
      ensures driverName == "pgsql" && expressionFactory == PostgreSQLFactory
    {
      var s := ConnectString(host, port, database, user, password);
      connectString := s;
      driverName := "pgsql";
      expressionFactory := PostgreSQLFactory;
    }
  }

  // ---- insert with RETURNING

  /** The attributes to return: none without an entity; all with `refetchAll` or when the entity
      has no primary key names; otherwise the primary-key attributes. */
  function RefetchAttributes(entity: Option<Entity>, refetchAll: bool): (r: Option<seq<Attribute>>)
    ensures entity.None? <==> r.None?
    ensures entity.Some? && (refetchAll || entity.value.primaryKeyAttributeNames.None? || entity.value.primaryKeyAttributeNames == Some([])) ==>
      r == Some(entity.value.attributes)
    ensures entity.Some? && !refetchAll && entity.value.primaryKeyAttributeNames.Some? && entity.value.primaryKeyAttributeNames.value != [] ==>
      r == Some(AttributesWithNames(entity.value.attributes, entity.value.primaryKeyAttributeNames.value))
  {
    match entity
    case None => None
    case Some(e) =>
      if refetchAll then Some(e.attributes)
      else if e.primaryKeyAttributeNames.None? || e.primaryKeyAttributeNames.value == [] then Some(e.attributes)
      else Some(AttributesWithNames(e.attributes, e.primaryKeyAttributeNames.value))
  }

  /** The statement and binds of a fresh PostgreSQL expression after
      `prepareInsertReturningExpressionWithRow`: empty without an entity. */
  function InsertReturning(up: Hooks, row: Row, entity: Option<Entity>, attrs: Option<seq<Attribute>>): (string, seq<BindVariable>) {
    if entity.None? then ("", [])
    else
      var a := Assemble(up.insertParts(entity, row), [], up.unsetPlaceholder);
      (a.0 + " RETURNING " + ReturningColumns(up, attrs), a.1)
  }

  /** `insertRow` of the PostgreSQL channel. */
  function InsertT(d: Driver, up: Hooks, row: Row, entity: Option<Entity>, refetchAll: bool): Result<Row, Error> {
    var attrs := RefetchAttributes(entity, refetchAll);
    var q := InsertReturning(up, row, entity, attrs);
    var res: Result<Option<Record>, Error> := EvaluateQueryExpression(d, q.0, q.1, attrs, OneRecord(entity, row), None);
    match res
    case Failure(e) => Failure(e)
    case Success(None) => Failure(FailedToRefetchInsertedRow(entity, row))
    case Success(Some(rec)) => Success(up.recordAsRow(rec))
  }

  method InsertRow(ch: AdaptorChannel, up: Hooks, row: Row, entity: Option<Entity>, refetchAll: bool) returns (r: Result<Row, Error>)
    ensures r == InsertT(ch.driver, up, row, entity, refetchAll)
  {
    var attributes := RefetchAttributes(entity, refetchAll);
    var expr := new Expression(PostgreSQLFactory, entity);
    expr.PrepareInsertReturningExpressionWithRow(up, row, attributes);
    var rec := EvaluateQueryExpression(ch.driver, expr.statement, expr.bindVariables, attributes, OneRecord(entity, row), None);
    if rec.Failure? {
      return Failure(rec.error);
    }
    if rec.value.None? {
      return Failure(FailedToRefetchInsertedRow(entity, row));
    }
    r := Success(up.recordAsRow(rec.value.value));
  }

  /** Once the driver hands back the cursor of the INSERT ... RETURNING, the insert succeeds exactly
      when the cursor holds one record and then end of data, and the result is that record as a row.
      No record throws `FailedToRefetchInsertedRow`; a second record throws it inside the fetch,
      where it is wrapped in `QueryFailed`. */
  lemma InsertRequiresExactlyOneRecord(d: Driver, up: Hooks, row: Row, entity: Option<Entity>, refetchAll: bool)
    requires var q := InsertReturning(up, row, entity, RefetchAttributes(entity, refetchAll)); CursorFor(d, q.0, q.1).Some?
    ensures var attrs := RefetchAttributes(entity, refetchAll);
      var q := InsertReturning(up, row, entity, attrs);
      var rs := CursorFor(d, q.0, q.1).value;
      var recs := RecordsFrom(rs, attrs, 0);
      var stop := rs.steps[StopIndex(rs, 0)];
      var r := InsertT(d, up, row, entity, refetchAll);
      && (r.Success? <==> |recs| == 1 && IsEndOfData(stop.rc, stop.message))
      && (r.Success? ==> r.value == up.recordAsRow(recs[0]))
      && (|recs| == 0 && IsEndOfData(stop.rc, stop.message) ==> r == Failure(FailedToRefetchInsertedRow(entity, row)))
      && (|recs| >= 2 ==> r == Failure(QueryFailed(q.0, FailedToRefetchInsertedRow(entity, row))))
  {
    var attrs := RefetchAttributes(entity, refetchAll);
    var q := InsertReturning(up, row, entity, attrs);
    var rs := CursorFor(d, q.0, q.1).value;
    EvaluateQueryUsesCursor(d, q.0, q.1, attrs, OneRecord(entity, row), OneRecord(entity, row), None);
    OneRecordFetch(rs, attrs, entity, row, q.0);
  }
}
