/**
 * The data-source type handlers: for each kind of database, whether a stored data source has
 * the fields to build a JDBC URL, the URL itself, the schema to use, and the configuration
 * handed to the connection layer.
 */
module DatasourceHandlers {
  import opened Wrappers
  import opened JavaText
  import opened AccessorFactory

  /** A stored data source (the Datasource entity): the fields the handlers read; null is None. */
  datatype Datasource = Datasource(
    host: Option<string>,
    port: Option<int>,
    databaseName: Option<string>,
    username: Option<string>,
    password: Option<string>,
    connectionUrl: Option<string>)

  /** Which implementation's overrides apply; Default is the interface's own behaviour. */
  datatype HandlerKind = MySql | PostgreSql | H2 | Default

  /** A handler and the type name it declares (the name comes from the data-source type catalogue). */
  datatype Handler = Handler(kind: HandlerKind, typeName: string)

  /** The code of the JDBC access type. */
  const JDBC := "jdbc"

  /** connectionType: always JDBC. */
  function ConnectionType(h: Handler): string
  {
    JDBC
  }

  /** dialectType: the type name. */
  function DialectType(h: Handler): string
  {
    h.typeName
  }

  /** supports: the type name compared ignoring letter case; a null type is not supported. */
  predicate Supports(h: Handler, t: Option<string>)
  {
    t.Some? && EqualsIgnoreCase(h.typeName, t.value)
  }

  /** Upper- or lower-casing the requested type does not change whether a handler supports it. */
  lemma SupportsIgnoresCase(h: Handler, t: string)
    ensures Supports(h, Some(ToUpper(t))) <==> Supports(h, Some(t))
    ensures Supports(h, Some(ToLower(t))) <==> Supports(h, Some(t))
  {
    assert ToLower(ToUpper(t)) == ToLower(t);
    assert ToLower(ToLower(t)) == ToLower(t);
  }

  /** hasRequiredConnectionFields: host, port and database name all present. */
  predicate HasRequiredConnectionFields(d: Datasource)
  {
    d.host.Some? && d.port.Some? && d.databaseName.Some?
  }

  const MYSQL_OPTIONS := "?useUnicode=true&characterEncoding=utf-8&zeroDateTimeBehavior=convertToNull&transformedBitIsBoolean=true&allowMultiQueries=true&allowPublicKeyRetrieval=true&useSSL=false&serverTimezone=Asia/Shanghai"
  const POSTGRESQL_OPTIONS := "?useUnicode=true&characterEncoding=utf-8&useSSL=false&serverTimezone=Asia/Shanghai"
  const H2_OPTIONS := ";DB_CLOSE_DELAY=-1;DATABASE_TO_LOWER=true;MODE=MySQL;DB_CLOSE_ON_EXIT=FALSE"

  /** "jdbc:<sub>://host:port/database<options>", the port printed as a decimal number. */
  function HostUrl(subprotocol: string, host: string, port: int, database: string, options: string): string
  {
    "jdbc:" + subprotocol + "://" + host + ":" + IntToString(port) + "/" + database + options
  }

  /**
   * The PostgreSQL database part of "database|schema": the text before the first "|". A name
   * made of bars only splits into no parts at all, and reading the first part throws.
   */
  function DatabasePart(databaseName: string): (r: Result<string>)
    ensures '|' !in databaseName ==> r == Ok(databaseName)
    ensures r.Err? <==> '|' in databaseName && |Split(databaseName, '|')| == 0
    ensures r.Err? ==> r.error == IndexOutOfBounds
  {
    if '|' in databaseName then
      var parts := Split(databaseName, '|');
      if |parts| == 0 then Err(IndexOutOfBounds) else Ok(parts[0])
    else Ok(databaseName)
  }

  /**
   * buildConnectionUrl: without host, port and database name, the stored URL; otherwise the
   * kind's URL (MySQL and PostgreSQL with their fixed options, PostgreSQL with only the
   * database part of the name, H2 an in-memory database).
   */
  function BuildConnectionUrl(h: Handler, d: Datasource): (r: Result<Option<string>>)
    ensures h.kind == Default || !HasRequiredConnectionFields(d) ==> r == Ok(d.connectionUrl)
    ensures h.kind == MySql && HasRequiredConnectionFields(d) ==>
              r == Ok(Some(HostUrl("mysql", d.host.value, d.port.value, d.databaseName.value, MYSQL_OPTIONS)))
    ensures h.kind == PostgreSql && HasRequiredConnectionFields(d) ==>
              match DatabasePart(d.databaseName.value)
              case Ok(database) => r == Ok(Some(HostUrl("postgresql", d.host.value, d.port.value, database, POSTGRESQL_OPTIONS)))
              case Err(e) => r == Err(e)
    ensures h.kind == H2 && HasRequiredConnectionFields(d) ==>
              r == Ok(Some("jdbc:h2:mem:" + d.databaseName.value + H2_OPTIONS))
  {
    if h.kind == Default || !HasRequiredConnectionFields(d) then Ok(d.connectionUrl)
    else
      match h.kind
      case MySql => Ok(Some(HostUrl("mysql", d.host.value, d.port.value, d.databaseName.value, MYSQL_OPTIONS)))
      case PostgreSql =>
        (match DatabasePart(d.databaseName.value)
         case Ok(database) => Ok(Some(HostUrl("postgresql", d.host.value, d.port.value, database, POSTGRESQL_OPTIONS)))
         case Err(e) => Err(e))
      case H2 => Ok(Some("jdbc:h2:mem:" + d.databaseName.value + H2_OPTIONS))
  }

  /** resolveConnectionUrl: a stored URL with text wins; otherwise the URL is built. */
  function ResolveConnectionUrl(h: Handler, d: Datasource): (r: Result<Option<string>>)
    ensures d.connectionUrl.Some? && HasText(d.connectionUrl.value) ==> r == Ok(d.connectionUrl)
    ensures !(d.connectionUrl.Some? && HasText(d.connectionUrl.value)) ==> r == BuildConnectionUrl(h, d)
  {
    var existing := d.connectionUrl;
    if existing.Some? && HasText(existing.value) then Ok(existing) else BuildConnectionUrl(h, d)
  }

  /**
   * extractSchemaName: the database name, except that PostgreSQL reads "database|schema" and
   * takes the schema, or the database when no schema follows the bar.
   */
  function ExtractSchemaName(h: Handler, d: Datasource): (r: Result<Option<string>>)
    ensures h.kind != PostgreSql ==> r == Ok(d.databaseName)
    ensures d.databaseName.None? || '|' !in d.databaseName.value ==> r == Ok(d.databaseName)
    ensures h.kind == PostgreSql && d.databaseName.Some? && '|' in d.databaseName.value ==>
              var parts := Split(d.databaseName.value, '|');
              (|parts| == 0 ==> r == Err(IndexOutOfBounds))
              && (|parts| == 1 ==> r == Ok(Some(parts[0])))
              && (|parts| > 1 ==> r == Ok(Some(parts[1])))
  {
    if h.kind == PostgreSql && d.databaseName.Some? && '|' in d.databaseName.value then
      var parts := Split(d.databaseName.value, '|');
      if |parts| == 0 then Err(IndexOutOfBounds)
      else if |parts| > 1 then Ok(Some(parts[1]))
      else Ok(Some(parts[0]))
    else Ok(d.databaseName)
  }

  /**
   * For a PostgreSQL data source named "database|schema" (neither part holding a bar, the schema
   * not empty), the URL names only the database and the schema is the part after the bar.
   */
  lemma PostgreSqlDatabaseAndSchema(h: Handler, d: Datasource, database: string, schema: string)
    requires h.kind == PostgreSql && d.host.Some? && d.port.Some?
    requires d.databaseName == Some(database + "|" + schema)
    requires '|' !in database && '|' !in schema && schema != ""
    ensures BuildConnectionUrl(h, d) == Ok(Some(HostUrl("postgresql", d.host.value, d.port.value, database, POSTGRESQL_OPTIONS)))
    ensures ExtractSchemaName(h, d) == Ok(Some(schema))
  {
    var name := database + "|" + schema;
    assert Join([database, schema], ['|']) == name;
    SplitOfJoin([database, schema], '|');
    assert name[|database|] == '|';
  }

  /** "database|" with no schema: the schema is the database itself. */
  lemma PostgreSqlMissingSchema(h: Handler, d: Datasource, database: string)
    requires h.kind == PostgreSql
    requires d.databaseName == Some(database + "|")
    requires '|' !in database && database != ""
    ensures ExtractSchemaName(h, d) == Ok(Some(database))
  {
    var name := database + "|";
    assert Join([database, ""], ['|']) == name;
    PiecesOfJoin([database, ""], '|');
    assert name[|database|] == '|';
    var parts := Split(name, '|');
    assert Pieces(name, '|') == [database, ""];
    assert parts == [database] || parts == [];
  }

  /** A PostgreSQL database name that is a lone bar fails both the URL and the schema. */
  lemma PostgreSqlLoneBar(h: Handler, d: Datasource)
    requires h.kind == PostgreSql && HasRequiredConnectionFields(d) && d.databaseName == Some("|")
    ensures BuildConnectionUrl(h, d) == Err(IndexOutOfBounds)
    ensures ExtractSchemaName(h, d) == Err(IndexOutOfBounds)
  {
    LoneBarSplitsToNothing();
  }

  lemma LoneBarSplitsToNothing()
    ensures '|' in "|" && Split("|", '|') == []
  {
    assert Join(["", ""], ['|']) == "|";
    PiecesOfJoin(["", ""], '|');
    assert "|"[0] == '|';
  }

  /**
   * toDbConfig: the resolved URL, the account, JDBC, the handler's dialect and its schema; the
   * exceptions of the URL and the schema pass through.
   */
  function ToDbConfig(h: Handler, d: Datasource): (r: Result<DbConfig>)
    ensures r.Ok? <==> ResolveConnectionUrl(h, d).Ok? && ExtractSchemaName(h, d).Ok?
    ensures r.Ok? ==> r.value == DbConfig(ResolveConnectionUrl(h, d).value, d.username, d.password,
                                          Some(JDBC), Some(h.typeName), ExtractSchemaName(h, d).value)
  {
    match ResolveConnectionUrl(h, d)
    case Err(e) => Err(e)
    case Ok(url) =>
      match ExtractSchemaName(h, d)
      case Err(e) => Err(e)
      case Ok(schema) =>
        Ok(DbConfig(url, d.username, d.password, Some(ConnectionType(h)), Some(DialectType(h)), schema))
  }

  // ---------------------------------------------------------------- the MySQL test URL

  const TIMEZONE_KEY := "serverTimezone"
  const TIMEZONE_VALUE := "Asia/Shanghai"
  const SSL_KEY := "useSSL"
  const SSL_VALUE := "false"
  const TIMEZONE_PROBE := "servertimezone="
  const SSL_PROBE := "usessl="

  /** appendParam: "key=value" after "?" when the URL has no query yet, after "&" otherwise. */
  function AppendParam(url: string, key: string, value: string): (r: string)
    ensures '?' !in url ==> r == url + "?" + key + "=" + value
    ensures '?' in url ==> r == url + "&" + key + "=" + value
  {
    url + (if '?' in url then "&" else "?") + key + "=" + value
  }

  /**
   * normalizeTestUrl: MySQL adds serverTimezone when no "servertimezone=" appears in any
   * letter case, then useSSL=false when no "usessl=" does; other kinds keep the URL.
   */
  function NormalizeTestUrl(h: Handler, url: string): (r: string)
    ensures StartsWith(r, url)
    ensures h.kind != MySql ==> r == url
    ensures h.kind == MySql && Contains(ToLower(url), TIMEZONE_PROBE) && Contains(ToLower(url), SSL_PROBE) ==> r == url
    ensures h.kind == MySql && Contains(ToLower(url), TIMEZONE_PROBE) && !Contains(ToLower(url), SSL_PROBE) ==>
              r == AppendParam(url, SSL_KEY, SSL_VALUE)
    ensures h.kind == MySql && !Contains(ToLower(url), TIMEZONE_PROBE) && Contains(ToLower(url), SSL_PROBE) ==>
              r == AppendParam(url, TIMEZONE_KEY, TIMEZONE_VALUE)
    ensures h.kind == MySql && !Contains(ToLower(url), TIMEZONE_PROBE) && !Contains(ToLower(url), SSL_PROBE) ==>
              r == AppendParam(AppendParam(url, TIMEZONE_KEY, TIMEZONE_VALUE), SSL_KEY, SSL_VALUE)
  {
    if h.kind != MySql then StartsWithSelf(url); url
    else
      var lowerUrl := ToLower(url);
      var updated := if !Contains(lowerUrl, TIMEZONE_PROBE) then AppendParam(url, TIMEZONE_KEY, TIMEZONE_VALUE) else url;
      TimezoneKeepsSslProbe(url);
      NormalizeTail(url, updated)
  }

  /** The second step of normalizeTestUrl: useSSL=false is appended to `updated` when it names no SSL setting. */
  function NormalizeTail(url: string, updated: string): (r: string)
    requires updated == url || updated == AppendParam(url, TIMEZONE_KEY, TIMEZONE_VALUE)
    ensures StartsWith(r, url)
    ensures Contains(ToLower(updated), SSL_PROBE) ==> r == updated
    ensures !Contains(ToLower(updated), SSL_PROBE) ==> r == AppendParam(updated, SSL_KEY, SSL_VALUE)
  {
    var r := if !Contains(ToLower(updated), SSL_PROBE) then AppendParam(updated, SSL_KEY, SSL_VALUE) else updated;
    StartsWithSelf(url);
    StartsWithExtend(url, url, if '?' in url then "&" else "?");
    StartsWithExtend(url + (if '?' in url then "&" else "?"), url, TIMEZONE_KEY);
    StartsWithExtend(url + (if '?' in url then "&" else "?") + TIMEZONE_KEY, url, "=");
    StartsWithExtend(url + (if '?' in url then "&" else "?") + TIMEZONE_KEY + "=", url, TIMEZONE_VALUE);
    var sep2 := if '?' in updated then "&" else "?";
    StartsWithExtend(updated, url, sep2);
    StartsWithExtend(updated + sep2, url, SSL_KEY);
    StartsWithExtend(updated + sep2 + SSL_KEY, url, "=");
    StartsWithExtend(updated + sep2 + SSL_KEY + "=", url, SSL_VALUE);
    r
  }

  /**
   * Appending the time zone neither adds nor removes an SSL setting: "usessl=" cannot straddle
   * the end of the URL and the appended "servertimezone=asia/shanghai".
   */
  lemma TimezoneKeepsSslProbe(url: string)
    ensures Contains(ToLower(AppendParam(url, TIMEZONE_KEY, TIMEZONE_VALUE)), SSL_PROBE) <==> Contains(ToLower(url), SSL_PROBE)
  {
    if Contains(ToLower(url), SSL_PROBE) {
      AppendedParamKeeps(url, TIMEZONE_KEY, TIMEZONE_VALUE, SSL_PROBE);
    } else {
      var sep := if '?' in url then "&" else "?";
      var tail := sep + TIMEZONE_KEY + "=" + TIMEZONE_VALUE;
      assert AppendParam(url, TIMEZONE_KEY, TIMEZONE_VALUE) == url + tail;
      ToLowerAppend(url, tail);
      TimezoneTail(sep);
      var lu, lt := ToLower(url), ToLower(tail);
      var w := lu + lt;
      forall i | 0 <= i <= |w| ensures !OccursAt(w, SSL_PROBE, i) {
        if i + 7 > |w| {
        } else if i + 7 <= |lu| {
          assert w[i..i + 7] == lu[i..i + 7];
          assert !OccursAt(lu, SSL_PROBE, i);
        } else if w[i + 6] != '=' {
          assert w[i..i + 7][6] != SSL_PROBE[6];
        } else {
          assert lt[i + 6 - |lu|] == '=';
          assert w[i + 5] == lt[14];
          assert w[i..i + 7][5] != SSL_PROBE[5];
        }
      }
    }
  }

  /** The lower-cased time zone parameter: its only '=' is at 15, right after an 'e'. */
  lemma TimezoneTail(sep: string)
    requires sep == "&" || sep == "?"
    ensures var lt := ToLower(sep + TIMEZONE_KEY + "=" + TIMEZONE_VALUE);
            |lt| == 29 && lt[14] == 'e' && forall j :: 0 <= j < |lt| && lt[j] == '=' ==> j == 15
  {
    var t := sep + TIMEZONE_KEY + "=" + TIMEZONE_VALUE;
    assert t == sep + "serverTimezone=Asia/Shanghai";
    assert forall j :: 0 <= j < |t| && t[j] == '=' ==> j == 15;
  }

  /** A URL with a parameter appended holds, lower-cased, the lower-cased "key=" of that parameter. */
  lemma AppendedParamFound(url: string, key: string, value: string)
    ensures Contains(ToLower(AppendParam(url, key, value)), ToLower(key + "="))
  {
    var sep := if '?' in url then "&" else "?";
    assert AppendParam(url, key, value) == (url + sep) + (key + "=") + value;
    ToLowerAppend((url + sep) + (key + "="), value);
    ToLowerAppend(url + sep, key + "=");
    ContainsSelf(ToLower(key + "="));
    ContainsInfix(ToLower(url + sep), ToLower(key + "="), ToLower(value), ToLower(key + "="));
  }

  /** Appending keeps whatever the lower-cased URL already held. */
  lemma AppendedParamKeeps(url: string, key: string, value: string, probe: string)
    requires Contains(ToLower(url), probe)
    ensures Contains(ToLower(AppendParam(url, key, value)), probe)
  {
    var rest := (if '?' in url then "&" else "?") + key + "=" + value;
    assert AppendParam(url, key, value) == url + rest;
    ToLowerAppend(url, rest);
    ContainsInfix("", ToLower(url), ToLower(rest), probe);
    assert "" + ToLower(url) + ToLower(rest) == ToLower(url) + ToLower(rest);
  }

  /** The MySQL test URL always names a server time zone and an SSL setting. */
  lemma NormalizedHasParams(h: Handler, url: string)
    requires h.kind == MySql
    ensures Contains(ToLower(NormalizeTestUrl(h, url)), TIMEZONE_PROBE)
    ensures Contains(ToLower(NormalizeTestUrl(h, url)), SSL_PROBE)
  {
    assert ToLower(TIMEZONE_KEY + "=") == TIMEZONE_PROBE;
    assert ToLower(SSL_KEY + "=") == SSL_PROBE;
    var updated := if !Contains(ToLower(url), TIMEZONE_PROBE) then AppendParam(url, TIMEZONE_KEY, TIMEZONE_VALUE) else url;
    if !Contains(ToLower(url), TIMEZONE_PROBE) {
      AppendedParamFound(url, TIMEZONE_KEY, TIMEZONE_VALUE);
    }
    assert Contains(ToLower(updated), TIMEZONE_PROBE);
    if !Contains(ToLower(updated), SSL_PROBE) {
      AppendedParamFound(updated, SSL_KEY, SSL_VALUE);
      AppendedParamKeeps(updated, SSL_KEY, SSL_VALUE, TIMEZONE_PROBE);
    }
  }

  /** Normalizing a normalized test URL changes nothing. */
  lemma NormalizeIdempotent(h: Handler, url: string)
    ensures NormalizeTestUrl(h, NormalizeTestUrl(h, url)) == NormalizeTestUrl(h, url)
  {
    if h.kind == MySql {
      NormalizedHasParams(h, url);
    }
  }
}
