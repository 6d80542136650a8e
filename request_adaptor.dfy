/** `ApacheRequestAdaptor`: channels on the connection `mod_dbd` gives a request, a
    request-local FIFO pool of at most four channels, and driver-name dispatch. */
module ApacheRequest {
  import opened Wrappers
  import opened ZeeQL
  import opened Dbd
  import opened SQLExpression
  import opened Channel

  const MAX_POOL_SIZE: nat := 4

  // ---- the pool as a value

  /** `releaseChannel`: append, unless the pool already holds `MAX_POOL_SIZE` channels. */
  function Released<C>(pool: seq<C>, c: C): (r: seq<C>)
    ensures |pool| < MAX_POOL_SIZE ==> r == pool + [c]
    ensures |pool| >= MAX_POOL_SIZE ==> r == pool
  {
    if |pool| < MAX_POOL_SIZE then pool + [c] else pool
  }

  /** Releasing never takes the pool past its bound. */
  lemma ReleaseKeepsBound<C>(pool: seq<C>, c: C)
    requires |pool| <= MAX_POOL_SIZE
    ensures |Released(pool, c)| <= MAX_POOL_SIZE
    ensures pool <= Released(pool, c)
  {
  }

  /** Releasing several channels in turn. */
  function ReleasedAll<C>(pool: seq<C>, cs: seq<C>): seq<C>
    decreases |cs|
  {
    if cs == [] then pool else ReleasedAll(Released(pool, cs[0]), cs[1..])
  }

  function Min(a: int, b: int): int {
    if a <= b then a else b
  }

  /** Channels released in turn are pooled in the order of release until the pool is full; the
      rest are dropped. */
  lemma {:induction false} ReleasedAllKeepsFirst<C>(pool: seq<C>, cs: seq<C>)
    requires |pool| <= MAX_POOL_SIZE
    ensures ReleasedAll(pool, cs) == pool + cs[..Min(|cs|, MAX_POOL_SIZE - |pool|)]
    decreases |cs|
  {
    if cs != [] {
      var p := Released(pool, cs[0]);
      ReleasedAllKeepsFirst(p, cs[1..]);
      if |pool| < MAX_POOL_SIZE {
        var m := Min(|cs[1..]|, MAX_POOL_SIZE - |p|);
        assert cs[1..][..m] == cs[1..m + 1];
        assert pool + cs[..m + 1] == pool + [cs[0]] + cs[1..m + 1];
      } else {
        assert cs[..0] == [] && pool + [] == pool;
      }
    }
  }

  /** FIFO: with room in the pool, a released channel comes out after every channel already in it. */
  lemma ReleasedComesOutLast<C>(pool: seq<C>, c: C)
    requires |pool| < MAX_POOL_SIZE
    ensures var r := Released(pool, c); r[..|pool|] == pool && r[|pool|] == c && |r| == |pool| + 1
  {
  }

  // ---- what mod_dbd gives the request

  /** An `ap_dbd_t`: whether it has a connection handle, and its driver if any. */
  datatype Connection = Connection(hasHandle: bool, driver: Option<Driver>)

  /** The request's environment: whether `ap_dbd_acquire` could be looked up, what it returns, and
      whether the request has a pool. */
  datatype Env = Env(acquireAvailable: bool, acquired: Option<Connection>, requestHasPool: bool)

  /** The first of `primaryOpenChannel`'s guards that fails, in the order they are checked. */
  function OpenFailureOf(env: Env): (f: Option<OpenFailure>)
    ensures !env.acquireAvailable <==> f == Some(MissingAcquireModDBDNotAvailable)
    ensures env.acquireAvailable && env.acquired.None? <==> f == Some(CouldNotAquire)
    ensures env.acquireAvailable && env.acquired.Some? && !env.requestHasPool <==> f == Some(RequestHasNoPool)
    ensures env.acquireAvailable && env.acquired.Some? && env.requestHasPool && !env.acquired.value.hasHandle <==>
      f == Some(ConnectionHasNoHandle)
    ensures f.None? <==>
      env.acquireAvailable && env.acquired.Some? && env.requestHasPool && env.acquired.value.hasHandle && env.acquired.value.driver.Some?
  {
    if !env.acquireAvailable then Some(MissingAcquireModDBDNotAvailable)
    else if env.acquired.None? then Some(CouldNotAquire)
    else if !env.requestHasPool then Some(RequestHasNoPool)
    else if !env.acquired.value.hasHandle then Some(ConnectionHasNoHandle)
    else if env.acquired.value.driver.None? then Some(ConnectionHasNoDriver)
    else None
  }

  /** The channel class for a driver name (`APRDriverNames`). */
  function KindForDriverName(name: Option<string>): (k: ChannelKind)
    ensures k == SQLite3Channel <==> name == Some("sqlite3")
    ensures k == PostgreSQLChannel <==> name == Some("pgsql")
    ensures k == GenericChannel <==> name != Some("sqlite3") && name != Some("pgsql")
  {
    if name == Some("sqlite3") then SQLite3Channel
    else if name == Some("pgsql") then PostgreSQLChannel
    else GenericChannel
  }

  /** The factory a dispatch to a channel class would install. */
  function FactoryForKind(k: ChannelKind): (f: FactoryKind)
    ensures f == PostgreSQLFactory <==> k == PostgreSQLChannel
  {
    if k == PostgreSQLChannel then PostgreSQLFactory else AprFactory
  }

  /** `_expressionFactory` after a dispatch: set only while nil. */
  function FactoryAfter(current: Option<FactoryKind>, k: ChannelKind): (r: Option<FactoryKind>)
    ensures r.Some?
    ensures current.Some? ==> r == current
    ensures current.None? ==> r == Some(FactoryForKind(k))
  {
    if current.None? then Some(FactoryForKind(k)) else current
  }

  /** The first dispatch decides the factory for good: a later PostgreSQL channel on an adaptor
      that first opened a SQLite3 or generic channel gets the APR factory. */
  lemma FirstDispatchWins(current: Option<FactoryKind>, first: ChannelKind, later: seq<ChannelKind>)
    ensures FactoriesAfter(FactoryAfter(current, first), later) == FactoryAfter(current, first)
  {
    FirstDispatchSticks(FactoryAfter(current, first), later);
  }

  function FactoriesAfter(current: Option<FactoryKind>, ks: seq<ChannelKind>): Option<FactoryKind>
    decreases |ks|
  {
    if ks == [] then current else FactoriesAfter(FactoryAfter(current, ks[0]), ks[1..])
  }

  lemma {:induction false} FirstDispatchSticks(current: Option<FactoryKind>, ks: seq<ChannelKind>)
    requires current.Some?
    ensures FactoriesAfter(current, ks) == current
    decreases |ks|
  {
    if ks != [] {
      FirstDispatchSticks(FactoryAfter(current, ks[0]), ks[1..]);
    }
  }

  /** The class dispatch of `fetchModel` and `fetchModelTag`: the helper of the channel's class, or
      `AdaptorError.NotImplemented` for the generic channel. */
  function FetchDispatch(kind: ChannelKind, operation: string): (r: Result<ModelFetcher, Error>)
    ensures r.Failure? <==> kind == GenericChannel
    ensures r.Failure? ==> r.error == AdaptorNotImplemented(operation)
    ensures r.Success? ==> ModelFetcherFor(kind) == Some(r.value)
  {
    match ModelFetcherFor(kind)
    case None => Failure(AdaptorNotImplemented(operation))
    case Some(f) => Success(f)
  }

  /** The adaptor's `NotImplemented` is not the channel's: a generic channel's `fetchModel` failure
      differs from its `describe*` failure. */
  lemma FetchFailureIsAdaptorError(operation: string)
    ensures FetchDispatch(GenericChannel, operation).Failure?
    ensures Describe(GenericChannel, operation).Failure?
    ensures FetchDispatch(GenericChannel, operation).error != Describe(GenericChannel, operation).error
  {
  }

  class RequestAdaptor {
    const env: Env
    var pooledConnections: seq<AdaptorChannel>
    var installedFactory: Option<FactoryKind>

    /** The state right after `init`, once the acquire function was found. */
    constructor (env: Env)
      ensures this.env == env && pooledConnections == [] && installedFactory == None
    {
      this.env := env;
      pooledConnections := [];
      installedFactory := None;
    }

    /** `init`: throws when `ap_dbd_acquire` cannot be looked up. */
    static method Init(env: Env) returns (r: Result<RequestAdaptor, OpenFailure>)
      ensures r.Failure? <==> !env.acquireAvailable
      ensures r.Failure? ==> r.error == MissingAcquireModDBDNotAvailable
      ensures r.Success? ==> fresh(r.value) && r.value.env == env && r.value.pooledConnections == [] && r.value.installedFactory == None
    {
      if !env.acquireAvailable {
        return Failure(MissingAcquireModDBDNotAvailable);
      }
      var a := new RequestAdaptor(env);
      r := Success(a);
    }

    predicate Valid()
      reads this
    {
      |pooledConnections| <= MAX_POOL_SIZE
    }

    /** The `expressionFactory` getter. */
    function ExpressionFactory(): (f: FactoryKind)
      reads this
      ensures installedFactory.None? ==> f == AprFactory
      ensures installedFactory.Some? ==> f == installedFactory.value
    {
      installedFactory.GetOr(AprFactory)
    }

    /** `primaryOpenChannel`: a borrowed channel of the class the driver name selects, or the first
        failing guard as `CouldNotOpenChannel`. */
    method PrimaryOpenChannel() returns (r: Result<AdaptorChannel, Error>)
      modifies this
      ensures pooledConnections == old(pooledConnections)
      ensures OpenFailureOf(env).Some? ==>
        r == Failure(CouldNotOpenChannel(OpenFailureOf(env).value)) && installedFactory == old(installedFactory)
      ensures OpenFailureOf(env).None? ==>
        var driver := env.acquired.value.driver.value;
        var kind := KindForDriverName(driver.name);
        && r.Success? && fresh(r.value)
        && r.value.kind == kind && r.value.driver == driver
        && !r.value.ownsPool && !r.value.ownsConnection
        && installedFactory == FactoryAfter(old(installedFactory), kind)
        && r.value.expressionFactory == installedFactory.value
        && r.value.tx.None? && r.value.statistics == Statistics(0, 0, 0)
    {
      if !env.acquireAvailable {
        return Failure(CouldNotOpenChannel(MissingAcquireModDBDNotAvailable));
      }
      if env.acquired.None? {
        return Failure(CouldNotOpenChannel(CouldNotAquire));
      }
      var apCon := env.acquired.value;
      if !env.requestHasPool {
        return Failure(CouldNotOpenChannel(RequestHasNoPool));
      }
      if !apCon.hasHandle {
        return Failure(CouldNotOpenChannel(ConnectionHasNoHandle));
      }
      if apCon.driver.None? {
        return Failure(CouldNotOpenChannel(ConnectionHasNoDriver));
      }
      var driver := apCon.driver.value;
      if driver.name.Some? {
        if driver.name.value == "sqlite3" {
          if installedFactory.None? {
            installedFactory := Some(AprFactory);
          }
          var ch := new AdaptorChannel(SQLite3Channel, driver, ExpressionFactory(), false, false);
          return Success(ch);
        }
        if driver.name.value == "pgsql" {
          if installedFactory.None? {
            installedFactory := Some(PostgreSQLFactory);
          }
          var ch := new AdaptorChannel(PostgreSQLChannel, driver, ExpressionFactory(), false, false);
          return Success(ch);
        }
      }
      if installedFactory.None? {
        installedFactory := Some(AprFactory);
      }
      var ch := new AdaptorChannel(GenericChannel, driver, ExpressionFactory(), false, false);
      r := Success(ch);
    }

    /** `openChannelFromPool`: the oldest pooled channel, removed from the pool; a new channel
        only when the pool is empty. */
    method OpenChannelFromPool() returns (r: Result<AdaptorChannel, Error>)
      requires Valid()
      modifies this
      ensures Valid()
      ensures old(pooledConnections) != [] ==>
        && r == Success(old(pooledConnections)[0])
        && pooledConnections == old(pooledConnections)[1..]
        && installedFactory == old(installedFactory)
      ensures old(pooledConnections) == [] ==> pooledConnections == []
      ensures old(pooledConnections) == [] && OpenFailureOf(env).Some? ==>
        r == Failure(CouldNotOpenChannel(OpenFailureOf(env).value)) && installedFactory == old(installedFactory)
      ensures old(pooledConnections) == [] && OpenFailureOf(env).None? ==>
        var driver := env.acquired.value.driver.value;
        var kind := KindForDriverName(driver.name);
        && r.Success? && fresh(r.value)
        && r.value.kind == kind && r.value.driver == driver
        && !r.value.ownsPool && !r.value.ownsConnection
        && installedFactory == FactoryAfter(old(installedFactory), kind)
        && r.value.expressionFactory == installedFactory.value
        && r.value.tx.None? && r.value.statistics == Statistics(0, 0, 0)
    {
      if pooledConnections == [] {
        r := PrimaryOpenChannel();
        return;
      }
      var ch := pooledConnections[0];
      pooledConnections := pooledConnections[1..];
      r := Success(ch);
    }

    /** `releaseChannel`. */
    method ReleaseChannel(channel: AdaptorChannel)
      requires Valid()
      modifies this
      ensures Valid()
      ensures pooledConnections == Released(old(pooledConnections), channel)
      ensures installedFactory == old(installedFactory)
    {
      if |pooledConnections| >= MAX_POOL_SIZE {
        return;
      }
      pooledConnections := pooledConnections + [channel];
    }

    /** `fetchModel` and `fetchModelTag` (`operation` is the Swift function name): take a channel
        from the pool, hand it to the reflection helper of its class, and give it back. A generic
        channel throws `AdaptorError.NotImplemented`. A failed open registers no release. Only a
        fresh open can install the expression factory. */
    method FetchModel(operation: string) returns (r: Result<ModelFetcher, Error>)
      requires Valid()
      modifies this
      ensures Valid()
      ensures old(pooledConnections) != [] ==>
        && r == FetchDispatch(old(pooledConnections)[0].kind, operation)
        && pooledConnections == old(pooledConnections)[1..] + [old(pooledConnections)[0]]
      ensures old(pooledConnections) == [] && OpenFailureOf(env).Some? ==>
        r == Failure(CouldNotOpenChannel(OpenFailureOf(env).value)) && pooledConnections == []
      ensures old(pooledConnections) != [] || OpenFailureOf(env).Some? ==>
        installedFactory == old(installedFactory)
      ensures old(pooledConnections) == [] && OpenFailureOf(env).None? ==>
        var driver := env.acquired.value.driver.value;
        var kind := KindForDriverName(driver.name);
        && r == FetchDispatch(kind, operation)
        && installedFactory == FactoryAfter(old(installedFactory), kind)
        && |pooledConnections| == 1 && fresh(pooledConnections[0])
        && pooledConnections[0].kind == kind && pooledConnections[0].driver == driver
        && pooledConnections[0].expressionFactory == installedFactory.value
    {
      var taken := OpenChannelFromPool();
      if taken.Failure? {
        return Failure(taken.error);
      }
      var channel := taken.value;
      r := FetchDispatch(channel.kind, operation);
      ReleaseChannel(channel);
    }
  }

  /** A channel taken from a non-empty pool and released again goes to the back: the pool rotates. */
  lemma TakeAndReleaseRotates<C>(pool: seq<C>)
    requires 0 < |pool| <= MAX_POOL_SIZE
    ensures Released(pool[1..], pool[0]) == pool[1..] + [pool[0]]
  {
  }
}
