/**
 * AbstractDBConnectionPool: data sources cached by connection parameters, a bounded retry loop
 * for obtaining a connection, closing the cache, and the mapping of a connectivity check.
 * Creating a data source and taking a connection from it are oracles indexed by attempt.
 */
module ConnectionPool {
  import opened Wrappers
  import opened JavaText

  const MAX_RETRIES: nat := 3
  const RETRY_DELAY: nat := 1000

  // ---------------------------------------------------------------- cache key

  /** `Objects.hashCode(password)`: 0 for null. */
  function PasswordHash(password: Option<string>): (h: int)
    ensures INT_MIN <= h <= INT_MAX
  {
    if password.None? then 0 else HashCode(password.value)
  }

  /** generateCacheKey: url + "|" + username + "|" + hash(password), null printed as "null". */
  function CacheKey(url: Option<string>, username: Option<string>, password: Option<string>): string
  {
    NullText(url) + "|" + NullText(username) + "|" + IntToString(PasswordHash(password))
  }

  lemma IntToStringNoBar(i: int)
    ensures '|' !in IntToString(i)
  {
    var t := NatToString(if i < 0 then -i else i);
    assert forall k :: 0 <= k < |t| ==> IsDigit(t[k]);
  }

  /**
   * When neither url nor username contains "|", the key splits back into url, username and the
   * password's hash, so two configurations share a key exactly when those three agree.
   */
  lemma CacheKeyParts(url: Option<string>, username: Option<string>, password: Option<string>)
    requires '|' !in NullText(url) && '|' !in NullText(username)
    ensures Pieces(CacheKey(url, username, password), '|')
            == [NullText(url), NullText(username), IntToString(PasswordHash(password))]
    ensures ParseInt(Pieces(CacheKey(url, username, password), '|')[2]) == Ok(PasswordHash(password))
  {
    var parts := [NullText(url), NullText(username), IntToString(PasswordHash(password))];
    IntToStringNoBar(PasswordHash(password));
    assert parts[1..][1..] == [parts[2]];
    assert Join(parts[1..], ['|']) == parts[1] + ['|'] + parts[2];
    assert Join(parts, ['|']) == parts[0] + ['|'] + (parts[1] + ['|'] + parts[2]);
    assert CacheKey(url, username, password) == parts[0] + ['|'] + parts[1] + ['|'] + parts[2];
    assert CacheKey(url, username, password) == Join(parts, ['|']);
    PiecesOfJoin(parts, '|');
    ParseIntRoundTrip(PasswordHash(password));
  }

  lemma CacheKeyInjective(u1: Option<string>, n1: Option<string>, p1: Option<string>,
                          u2: Option<string>, n2: Option<string>, p2: Option<string>)
    requires '|' !in NullText(u1) && '|' !in NullText(n1)
    requires '|' !in NullText(u2) && '|' !in NullText(n2)
    ensures CacheKey(u1, n1, p1) == CacheKey(u2, n2, p2) <==>
              NullText(u1) == NullText(u2)
              && NullText(n1) == NullText(n2)
              && PasswordHash(p1) == PasswordHash(p2)
  {
    CacheKeyParts(u1, n1, p1);
    CacheKeyParts(u2, n2, p2);
  }

  // ---------------------------------------------------------------- data-source settings

  /** The Druid filters: "stat" alone for the Dameng driver, "wall,stat" otherwise. */
  function Filters(driver: Option<string>): (r: string)
    ensures driver.Some? && Contains(ToLower(driver.value), "dm.jdbc.driver.dmdriver") ==> r == "stat"
    ensures !(driver.Some? && Contains(ToLower(driver.value), "dm.jdbc.driver.dmdriver")) ==> r == "wall,stat"
  {
    if driver.Some? && Contains(ToLower(driver.value), "dm.jdbc.driver.dmdriver") then "stat" else "wall,stat"
  }

  // ---------------------------------------------------------------- retry loop

  /**
   * One attempt: the cached data source, or a newly created one; then a connection from it.
   * Yields the data source known afterwards and the attempt's outcome.
   */
  function Attempt<D, C>(ds: Option<D>, k: nat, create: nat -> Result<D>, connect: (D, nat) -> Result<C>): (r: (Option<D>, Result<C>))
    ensures ds.Some? ==> r.0 == ds
    ensures ds.None? && create(k).Err? ==> r.0.None? && r.1 == Err(create(k).error)
    ensures ds.None? && create(k).Ok? ==> r.0 == Some(create(k).value)
    ensures r.0.Some? ==> r.1 == connect(r.0.value, k)
  {
    if ds.Some? then (ds, connect(ds.value, k))
    else
      match create(k)
      case Err(e) => (None, Err(e))
      case Ok(d) => (Some(d), connect(d, k))
  }

  /** The error after the last failed attempt. */
  const GIVE_UP: JavaError := Runtime("Failed to get database connection after 3 attempts")

  /** Attempts k, k + 1, ... up to 3: the data source known at the end, the outcome and the number of the last attempt. */
  function Retry<D, C>(ds: Option<D>, k: nat, create: nat -> Result<D>, connect: (D, nat) -> Result<C>): (Option<D>, Result<C>, nat)
    requires 1 <= k <= MAX_RETRIES
    decreases MAX_RETRIES - k
  {
    var (ds', res) := Attempt(ds, k, create, connect);
    if res.Ok? then (ds', res, k)
    else if k == MAX_RETRIES then (ds', Err(GIVE_UP), k)
    else Retry(ds', k + 1, create, connect)
  }

  /**
   * The retry loop makes at most three attempts; it fails only after the third, with the
   * RuntimeException; it succeeds with the connection of its last attempt and every earlier
   * attempt failed; a known data source is never replaced, and one is created at most once.
   */
  lemma {:induction false} RetrySpec<D, C>(ds: Option<D>, k: nat, create: nat -> Result<D>, connect: (D, nat) -> Result<C>)
    requires 1 <= k <= MAX_RETRIES
    ensures var (ds', res, last) := Retry(ds, k, create, connect);
            k <= last <= MAX_RETRIES
            && (res.Err? ==> last == MAX_RETRIES && res.error == GIVE_UP)
            && (res.Ok? ==> ds'.Some? && res == connect(ds'.value, last))
            && (ds.Some? ==> ds' == ds)
            && (ds'.Some? && ds.None? ==> exists j :: k <= j <= last && create(j) == Ok(ds'.value))
            && (forall j :: k <= j < last ==> Attempt(Known(ds, k, j, create), j, create, connect).1.Err?)
    decreases MAX_RETRIES - k
  {
    var (ds1, res1) := Attempt(ds, k, create, connect);
    if res1.Err? && k < MAX_RETRIES {
      RetrySpec(ds1, k + 1, create, connect);
      var last := Retry(ds1, k + 1, create, connect).2;
      forall j | k <= j < last ensures Attempt(Known(ds, k, j, create), j, create, connect).1.Err? {
        if j > k {
          KnownStep(ds, k, j, create, connect);
        }
      }
    }
  }

  /** The data source known when attempt j starts, having started attempt k with `ds`. */
  function Known<D>(ds: Option<D>, k: nat, j: nat, create: nat -> Result<D>): Option<D>
    decreases j - k
  {
    if j <= k || ds.Some? then ds
    else Known(if create(k).Ok? then Some(create(k).value) else None, k + 1, j, create)
  }

  lemma KnownStep<D, C>(ds: Option<D>, k: nat, j: nat, create: nat -> Result<D>, connect: (D, nat) -> Result<C>)
    requires k < j
    ensures Known(ds, k, j, create) == Known(Attempt(ds, k, create, connect).0, k + 1, j, create)
  {
    if ds.Some? {
      KnownSome(ds, k + 1, j, create);
    }
  }

  lemma {:induction false} KnownSome<D>(ds: Option<D>, k: nat, j: nat, create: nat -> Result<D>)
    requires ds.Some?
    ensures Known(ds, k, j, create) == ds
  {
  }

  /** The waits between attempts: 1000 * k milliseconds after failed attempt k, for every attempt before the last. */
  function Waits(last: nat): (w: seq<nat>)
    ensures |w| == if last == 0 then 0 else last - 1
    ensures forall i :: 0 <= i < |w| ==> w[i] == RETRY_DELAY * (i + 1)
  {
    if last <= 1 then [] else Waits(last - 1) + [RETRY_DELAY * (last - 1)]
  }

  /** The data-source cache shared by the pool, with the waits it has slept through. */
  class Pool {
    var cache: map<string, int>
    var waits: seq<nat>

    constructor ()
      ensures cache == map[] && waits == []
    {
      cache := map[];
      waits := [];
    }

    /**
     * getConnection: up to three attempts, each looking up the data source under the cache
     * key and creating it only when the key is absent, with a wait of 1000 * k ms after failed
     * attempt k < 3. The outcome follows Retry; the cache gains at most the created data source.
     */
    method GetConnection<C>(url: Option<string>, username: Option<string>, password: Option<string>,
                            create: nat -> Result<int>, connect: (int, nat) -> Result<C>)
      returns (r: Result<C>, attempts: nat)
      modifies this
      ensures var key := CacheKey(url, username, password);
              var known := if key in old(cache) then Some(old(cache)[key]) else None;
              var (ds', res, last) := Retry(known, 1, create, connect);
              r == res && attempts == last
              && cache == (if ds'.Some? then old(cache)[key := ds'.value] else old(cache))
              && waits == old(waits) + Waits(last)
    {
      var key := CacheKey(url, username, password);
      ghost var known := if key in cache then Some(cache[key]) else None;
      var attempt := 1;
      while true
        invariant 1 <= attempt <= MAX_RETRIES
        invariant var k := if key in cache then Some(cache[key]) else None;
                  Retry(known, 1, create, connect) == Retry(k, attempt, create, connect)
                  && cache == (if k.Some? then old(cache)[key := k.value] else old(cache))
                  && (known.Some? ==> k == known)
        invariant waits == old(waits) + Waits(attempt)
        decreases MAX_RETRIES - attempt
      {
        var outcome := AttemptCached(key, attempt, create, connect);
        if outcome.Ok? {
          return outcome, attempt;
        }
        if attempt == MAX_RETRIES {
          return Err(GIVE_UP), attempt;
        }
        waits := waits + [RETRY_DELAY * attempt];
        attempt := attempt + 1;
      }
    }

    /** One attempt of getConnection: the data source cached under `key`, or a new one that is cached when it was created. */
    method AttemptCached<C>(key: string, attempt: nat, create: nat -> Result<int>, connect: (int, nat) -> Result<C>)
      returns (outcome: Result<C>)
      modifies this
      ensures var known := if key in old(cache) then Some(old(cache)[key]) else None;
              var (ds', res) := Attempt(known, attempt, create, connect);
              outcome == res && cache == (if ds'.Some? then old(cache)[key := ds'.value] else old(cache))
      ensures waits == old(waits)
    {
      if key in cache {
        outcome := connect(cache[key], attempt);
        assert cache[key := cache[key]] == cache;
      } else {
        var created := create(attempt);
        if created.Ok? {
          cache := cache[key := created.value];
          outcome := connect(created.value, attempt);
        } else {
          outcome := Err(created.error);
        }
      }
    }

    /** close: the cache is emptied. */
    method Close()
      modifies this
      ensures cache == map[] && waits == old(waits)
    {
      cache := map[];
    }
  }

  // ---------------------------------------------------------------- ping

  /** The outcome of ping: success, the missing-schema code, or the dialect's mapping of an SQL state. */
  datatype PingCode<E> = Success | SchemaNotExist | Mapped(code: E)

  /** getSelectSchemaSQL */
  function SelectSchemaSql(schema: Option<string>): string
  {
    "SELECT count(*) FROM information_schema.schemata WHERE schema_name = '" + NullText(schema) + "'"
  }

  /**
   * ping: a PostgreSQL-dialect connection whose schema count is 0 gives SCHEMA_NOT_EXIST, any
   * other successful check gives SUCCESS, and an SQLException is mapped from its SQL state.
   * `connect` is opening the connection, `count` running the schema query (None when it returns no row).
   */
  function Ping<E>(isPgDialect: bool, schema: Option<string>, connect: Result<()>, count: string -> Result<Option<int>>,
                   errorMapping: string -> E): (r: Result<PingCode<E>>)
    ensures connect.Ok? && !isPgDialect ==> r == Ok(Success)
    ensures connect.Ok? && isPgDialect && count(SelectSchemaSql(schema)) == Ok(Some(0)) ==> r == Ok(SchemaNotExist)
    ensures r == Ok(SchemaNotExist) ==> isPgDialect && count(SelectSchemaSql(schema)) == Ok(Some(0))
    ensures connect.Ok? && isPgDialect && count(SelectSchemaSql(schema)).Ok? && count(SelectSchemaSql(schema)).value != Some(0) ==>
              r == Ok(Success)
    ensures connect.Ok? && isPgDialect && count(SelectSchemaSql(schema)).Err? && count(SelectSchemaSql(schema)).error.SqlError? ==>
              r == Ok(Mapped(errorMapping(count(SelectSchemaSql(schema)).error.sqlState)))
    ensures connect.Err? && connect.error.SqlError? ==> r == Ok(Mapped(errorMapping(connect.error.sqlState)))
    ensures r.Err? ==> (connect.Err? && !connect.error.SqlError? && r.error == connect.error)
                       || (isPgDialect && count(SelectSchemaSql(schema)).Err? && !count(SelectSchemaSql(schema)).error.SqlError?)
  {
    var checked :=
      if connect.Err? then Err(connect.error)
      else if !isPgDialect then Ok(Success)
      else
        match count(SelectSchemaSql(schema))
        case Err(e) => Err(e)
        case Ok(n) => if n == Some(0) then Ok(SchemaNotExist) else Ok(Success);
    if checked.Err? && checked.error.SqlError? then Ok(Mapped(errorMapping(checked.error.sqlState))) else checked
  }
}
