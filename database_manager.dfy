/** The database connection layer of app/database_manager.py: a front
    object that validates the connection parameters, routes SQL types to an
    SQL manager and every other type to a NoSQL manager, and keeps a small
    status record (disconnected / connected / error, the last error text and
    the time of the last connection).

    The drivers (SQLAlchemy, MongoClient, QdrantClient) are outside the
    model. Each call into them is an outcome given as a parameter: `Ok(h)`
    for an opaque handle `h` the driver returned, `Err(m)` for an exception
    whose text is `m`. Connection parameters are modelled by the text of
    their values. */
module DatabaseManager {
  import opened Outcomes
  import opened Text

  /** The exceptions the layer raises, with the text `str(e)` gives. */
  datatype Error =
    | ValueError(message: string)
    | ConnectionError(message: string)
    /** The bare `Exception` raised when a query fails. */
    | QueryFailed(message: string)
    /** An exception from a driver's close or dispose, passed on as is. */
    | DriverError(message: string)

  type Params = map<string, string>

  datatype Status = Disconnected | Connected | Failed

  /** The status text get_connection_info reports. */
  function StatusText(s: Status): string
  {
    match s
    case Disconnected => "disconnected"
    case Connected => "connected"
    case Failed => "error"
  }

  /** A time stamp from the system clock; the clock itself is not modelled. */
  datatype Timestamp = Timestamp(ticks: int)

  /** A SQLAlchemy engine: the connection string it was created with and
      the driver's handle. */
  datatype Engine = Engine(connectionString: string, handle: nat)

  const DefaultMongoHost: string := "localhost"
  const DefaultMongoPort: int := 27017

  /** The port given to MongoClient: a parameter's value or the default number. */
  datatype Port = PortParam(value: string) | PortNumber(number: int)

  /** What MongoClient is called with. */
  datatype MongoTarget =
    | MongoUrl(url: string)
    | MongoHost(host: string, port: Port, username: Option<string>, password: Option<string>)

  /** The connection objects the managers keep. */
  datatype Connection =
    | SqlConnection(engine: Engine, handle: nat)
    | MongoConnection(target: MongoTarget, handle: nat)
    | QdrantConnection(url: Option<string>, apiKey: Option<string>, handle: nat)

  // ---------------------------------------------------------------------
  // Parameter validation and routing
  // ---------------------------------------------------------------------

  const SqlTypes: seq<string> := ["sqlite", "mysql", "postgresql"]

  /** The parameters MySQL and PostgreSQL require, in the order they are reported. */
  const ServerKeys: seq<string> := ["host", "username", "password", "database"]

  /** The keys of `keys` absent from `params`, in the order of `keys`. */
  function MissingKeys(keys: seq<string>, params: Params): (missing: seq<string>)
    ensures forall k :: k in missing <==> k in keys && k !in params
  {
    if keys == [] then []
    else (if keys[0] in params then [] else [keys[0]]) + MissingKeys(keys[1..], params)
  }

  /** `a` is `b` with some elements left out, the rest in the same order. */
  predicate Subsequence(a: seq<string>, b: seq<string>)
    decreases |b|
  {
    if a == [] then true
    else if b == [] then false
    else (a[0] == b[0] && Subsequence(a[1..], b[1..])) || Subsequence(a, b[1..])
  }

  /** The missing keys are reported in the order of the required list. */
  lemma {:induction false} MissingKeysInOrder(keys: seq<string>, params: Params)
    ensures Subsequence(MissingKeys(keys, params), keys)
  {
    if keys != [] {
      MissingKeysInOrder(keys[1..], params);
      var m := MissingKeys(keys, params);
      if keys[0] !in params {
        assert m[0] == keys[0] && m[1..] == MissingKeys(keys[1..], params);
      } else {
        assert m == MissingKeys(keys[1..], params);
      }
    }
  }

  /** DatabaseManager._validate_connection_params for a lower-cased type:
      the ValueError text it raises, or `None` when the parameters pass. */
  function Validate(databaseType: string, params: Params): Option<string>
  {
    if params == map[] then Some("Connection parameters cannot be empty")
    else if databaseType == "mysql" || databaseType == "postgresql" then
      var missing := MissingKeys(ServerKeys, params);
      if missing != [] then Some("Missing required parameters: " + Join(missing, ", ")) else None
    else if databaseType == "sqlite" then
      if "file_path" !in params && "database" !in params
      then Some("SQLite requires either file_path or database parameter") else None
    else if databaseType == "mongodb" then
      if "url" !in params && "host" !in params
      then Some("MongoDB requires either url or host parameter") else None
    else if databaseType == "qdrant" then
      if "url" !in params then Some("Qdrant requires url parameter") else None
    else None
  }

  /** The parameters pass exactly when they are not empty and hold what the
      type needs: all four server keys for MySQL and PostgreSQL, a file path
      or a database for SQLite, a URL or a host for MongoDB, a URL for
      Qdrant; any other type needs nothing more. */
  lemma ValidateAccepts(databaseType: string, params: Params)
    ensures Validate(databaseType, params).None? <==>
      && params != map[]
      && ((databaseType == "mysql" || databaseType == "postgresql") ==>
            forall k :: k in ServerKeys ==> k in params)
      && (databaseType == "sqlite" ==> "file_path" in params || "database" in params)
      && (databaseType == "mongodb" ==> "url" in params || "host" in params)
      && (databaseType == "qdrant" ==> "url" in params)
  {
    if databaseType == "mysql" || databaseType == "postgresql" {
      var missing := MissingKeys(ServerKeys, params);
      if missing != [] {
        assert missing[0] in ServerKeys && missing[0] !in params;
      }
    }
  }

  /** For MySQL and PostgreSQL the error names exactly the missing server
      keys, in the order host, username, password, database. */
  lemma ServerTypeReportsMissing(databaseType: string, params: Params)
    requires databaseType == "mysql" || databaseType == "postgresql"
    requires params != map[]
    requires exists k :: k in ServerKeys && k !in params
    ensures var missing := MissingKeys(ServerKeys, params);
      && Validate(databaseType, params) == Some("Missing required parameters: " + Join(missing, ", "))
      && Subsequence(missing, ServerKeys)
      && (forall k :: k in missing <==> k in ServerKeys && k !in params)
  {
    MissingKeysInOrder(ServerKeys, params);
    var k :| k in ServerKeys && k !in params;
    assert k in MissingKeys(ServerKeys, params);
  }

  /** Which manager the front object builds: SQLite, MySQL and PostgreSQL go
      to the SQL manager. */
  predicate IsSqlType(databaseType: string)
  {
    databaseType in SqlTypes
  }

  // ---------------------------------------------------------------------
  // SQL connection string and error messages
  // ---------------------------------------------------------------------

  /** The connection string SQLDatabaseManager.connect builds, or the text of
      the KeyError raised while building it (`'url'` or `'password'`). */
  function ConnectionString(params: Params): Result<string, string>
  {
    if "file_path" in params then Ok("sqlite:///" + params["file_path"])
    else if "url" !in params then Err("'url'")
    else if "username" !in params then Ok(params["url"])
    else if "password" !in params then Err("'password'")
    else
      var credentials := params["username"] + ":" + params["password"];
      Ok(ReplaceAll(params["url"], "://", "://" + credentials + "@"))
  }

  /** Building the string fails exactly when there is no file path and
      either the URL is missing or a user name comes without a password. */
  lemma ConnectionStringFails(params: Params)
    ensures ConnectionString(params).Err? <==>
      "file_path" !in params && ("url" !in params || ("username" in params && "password" !in params))
    ensures ConnectionString(params).Err? ==>
      ConnectionString(params).error == (if "url" !in params then "'url'" else "'password'")
  {
  }

  /** The credentials go in right after the first `://` of the URL, and
      every later `://` gets them as well: `replace` has no count. */
  lemma {:induction false} CredentialsInserted(params: Params, scheme: string, rest: string)
    requires "file_path" !in params && "username" in params && "password" in params
    requires "url" in params && params["url"] == scheme + "://" + rest
    requires forall i :: 0 <= i < |scheme| ==> !OccursAt(params["url"], "://", i)
    ensures var repl := "://" + params["username"] + ":" + params["password"] + "@";
      ConnectionString(params) == Ok(scheme + repl + ReplaceAll(rest, "://", repl))
  {
    var repl := "://" + params["username"] + ":" + params["password"] + "@";
    assert "://" + (params["username"] + ":" + params["password"]) + "@" == repl;
    ReplaceFirst(scheme, "://", repl, rest);
  }

  /** A URL with a single `://` gets the credentials once. */
  lemma CredentialsInsertedOnce(params: Params, scheme: string, rest: string)
    requires "file_path" !in params && "username" in params && "password" in params
    requires "url" in params && params["url"] == scheme + "://" + rest
    requires forall i :: 0 <= i < |scheme| ==> !OccursAt(params["url"], "://", i)
    requires forall i :: !OccursAt(rest, "://", i)
    ensures ConnectionString(params) ==
      Ok(scheme + "://" + params["username"] + ":" + params["password"] + "@" + rest)
  {
    var repl := "://" + params["username"] + ":" + params["password"] + "@";
    CredentialsInserted(params, scheme, rest);
    ReplaceAbsent(rest, "://", repl);
    assert scheme + repl + rest == scheme + "://" + params["username"] + ":" + params["password"] + "@" + rest;
  }

  /** A URL with a second `://`, say in a query argument, gets the
      credentials inserted there too. */
  lemma CredentialsInsertedTwice(params: Params, scheme: string, middle: string, tail: string)
    requires "file_path" !in params && "username" in params && "password" in params
    requires "url" in params && params["url"] == scheme + "://" + middle + "://" + tail
    requires forall i :: 0 <= i < |scheme| ==> !OccursAt(params["url"], "://", i)
    requires forall i :: 0 <= i < |middle| ==> !OccursAt(middle + "://" + tail, "://", i)
    requires forall i :: !OccursAt(tail, "://", i)
    ensures var repl := "://" + params["username"] + ":" + params["password"] + "@";
      ConnectionString(params) == Ok(scheme + repl + middle + repl + tail)
  {
    var repl := "://" + params["username"] + ":" + params["password"] + "@";
    var rest := middle + "://" + tail;
    assert params["url"] == scheme + "://" + rest;
    CredentialsInserted(params, scheme, rest);
    ReplaceFirst(middle, "://", repl, tail);
    ReplaceAbsent(tail, "://", repl);
    assert ReplaceAll(rest, "://", repl) == middle + repl + tail;
    assert scheme + repl + (middle + repl + tail) == scheme + repl + middle + repl + tail;
  }

  /** Without a user name the URL is used as it is. */
  lemma UrlWithoutCredentials(params: Params)
    requires "file_path" !in params && "url" in params && "username" !in params
    ensures ConnectionString(params) == Ok(params["url"])
  {
  }

  const InvalidCredentials: string := "Invalid username or password"
  const NoSuchDatabase: string := "Database does not exist"
  const Unreachable: string := "Unable to reach database server." + " Please check host and port"
  const SqlFailurePrefix: string := "Failed to connect to SQL database: "

  /** The ConnectionError text SQLDatabaseManager.connect raises for an
      exception whose text is `detail`. */
  function SqlErrorMessage(detail: string): string
  {
    if Contains(detail, "Access denied") then InvalidCredentials
    else if Contains(detail, "Unknown database") then NoSuchDatabase
    else if Contains(detail, "Connection refused") then Unreachable
    else SqlFailurePrefix + detail
  }

  /** The error mapping tries the three markers in order and the first one
      found decides; without any of them the text is passed on after the
      generic prefix. Each outcome happens exactly in its own case. */
  lemma SqlErrorMessageCases(detail: string)
    ensures SqlErrorMessage(detail) == InvalidCredentials <==> Contains(detail, "Access denied")
    ensures SqlErrorMessage(detail) == NoSuchDatabase <==>
      !Contains(detail, "Access denied") && Contains(detail, "Unknown database")
    ensures SqlErrorMessage(detail) == Unreachable <==>
      !Contains(detail, "Access denied") && !Contains(detail, "Unknown database")
      && Contains(detail, "Connection refused")
    ensures SqlErrorMessage(detail) == SqlFailurePrefix + detail <==>
      !Contains(detail, "Access denied") && !Contains(detail, "Unknown database")
      && !Contains(detail, "Connection refused")
  {
    var fallback := SqlFailurePrefix + detail;
    assert fallback[0] == 'F';
    assert InvalidCredentials[0] == 'I';
    assert NoSuchDatabase[0] == 'D';
    assert Unreachable[0] == 'U';
  }

  // ---------------------------------------------------------------------
  // SQL manager
  // ---------------------------------------------------------------------

  /** What the SQL driver does on one connect attempt: create_engine, then
      the two engine.connect() calls the source makes. */
  datatype SqlDriver = SqlDriver(
    createEngine: Result<nat, string>,
    firstConnect: Result<nat, string>,
    secondConnect: Result<nat, string>)

  /** The fields of SQLDatabaseManager that connect and disconnect change. */
  datatype SqlState = SqlState(engine: Option<Engine>, connection: Option<Connection>)

  /** SQLDatabaseManager.connect as a transition: what it returns or raises
      and the fields afterwards. */
  function SqlConnect(params: Params, s: SqlState, d: SqlDriver): (Result<Connection, Error>, SqlState)
  {
    if s.connection.Some? then (Ok(s.connection.value), s)
    else match ConnectionString(params)
      case Err(key) => (Err(ConnectionError(SqlErrorMessage(key))), s)
      case Ok(cs) =>
        match d.createEngine
        case Err(m) => (Err(ConnectionError(SqlErrorMessage(m))), s)
        case Ok(h) =>
          var engine := Engine(cs, h);
          match d.firstConnect
          case Err(m) => (Err(ConnectionError(SqlErrorMessage(m))), SqlState(Some(engine), None))
          case Ok(c1) =>
            var first := SqlConnection(engine, c1);
            match d.secondConnect
            case Err(m) => (Err(ConnectionError(SqlErrorMessage(m))), SqlState(Some(engine), Some(first)))
            case Ok(c2) =>
              var second := SqlConnection(engine, c2);
              (Ok(second), SqlState(Some(engine), Some(second)))
  }

  /** Connecting when already connected returns the connection and changes nothing. */
  lemma SqlConnectWhenConnected(params: Params, s: SqlState, d: SqlDriver)
    requires s.connection.Some?
    ensures SqlConnect(params, s, d) == (Ok(s.connection.value), s)
  {
  }

  /** A successful connect keeps the returned connection, made on an engine
      created with the connection string built from the parameters. */
  lemma SqlConnectSuccess(params: Params, s: SqlState, d: SqlDriver)
    requires s.connection.None?
    ensures var (r, s') := SqlConnect(params, s, d);
      r.Ok? ==>
        && ConnectionString(params).Ok?
        && s'.connection == Some(r.value)
        && r.value.SqlConnection?
        && s'.engine == Some(r.value.engine)
        && r.value.engine.connectionString == ConnectionString(params).value
  {
  }

  /** Every failure is a ConnectionError carrying one of the four mapped
      messages. A failure before the first connection leaves the manager
      unconnected; a failure of the second engine.connect() leaves the first
      connection in place, so the manager then counts as connected. */
  lemma SqlConnectFailure(params: Params, s: SqlState, d: SqlDriver)
    requires s.connection.None?
    ensures var (r, s') := SqlConnect(params, s, d);
      r.Err? ==>
        && r.error.ConnectionError?
        && (exists detail :: r.error.message == SqlErrorMessage(detail))
        && (s'.connection.Some? <==>
              ConnectionString(params).Ok? && d.createEngine.Ok? && d.firstConnect.Ok?)
  {
    var (r, s') := SqlConnect(params, s, d);
    if r.Err? {
      match ConnectionString(params)
      case Err(key) =>
        assert r.error.message == SqlErrorMessage(key);
      case Ok(cs) =>
        if d.createEngine.Err? {
          assert r.error.message == SqlErrorMessage(d.createEngine.error);
        } else if d.firstConnect.Err? {
          assert r.error.message == SqlErrorMessage(d.firstConnect.error);
        } else {
          assert r.error.message == SqlErrorMessage(d.secondConnect.error);
        }
    }
  }

  /** A missing URL surfaces as the generic failure quoting the key. */
  lemma SqlConnectMissingUrl(params: Params, s: SqlState, d: SqlDriver)
    requires s.connection.None? && "file_path" !in params && "url" !in params
    ensures SqlConnect(params, s, d).0 == Err(ConnectionError("Failed to connect to SQL database: 'url'"))
  {
    assert !Contains("'url'", "Access denied");
    assert !Contains("'url'", "Unknown database");
    assert !Contains("'url'", "Connection refused");
    assert SqlFailurePrefix + "'url'" == "Failed to connect to SQL database: 'url'";
  }

  /** The query guard shared by both managers: not connected raises
      ConnectionError, a driver failure is wrapped. */
  function QueryOutcome(connected: bool, execute: Result<nat, string>): (r: Result<nat, Error>)
  {
    if !connected then Err(ConnectionError("Database not connected"))
    else match execute
      case Ok(rows) => Ok(rows)
      case Err(m) => Err(QueryFailed("Query execution failed: " + m))
  }

  /** Without a connection no query reaches the driver; with one the driver's
      answer is passed on and its failure is reported with the prefix. */
  lemma QueryGuard(connected: bool, execute: Result<nat, string>)
    ensures !connected ==> QueryOutcome(connected, execute) == Err(ConnectionError("Database not connected"))
    ensures connected && execute.Ok? ==> QueryOutcome(connected, execute) == Ok(execute.value)
    ensures connected && execute.Err? ==>
      QueryOutcome(connected, execute).error.message == "Query execution failed: " + execute.error
  {
  }

  /** SQLDatabaseManager.disconnect as a transition: close the connection,
      then dispose of the engine; `closeError` and `disposeError` are what the
      driver raises, if anything, and an exception stops the method there. */
  function SqlDisconnect(s: SqlState, closeError: Option<string>, disposeError: Option<string>)
    : (Result<(), Error>, SqlState)
  {
    if s.connection.Some? && closeError.Some? then (Err(DriverError(closeError.value)), s)
    else
      var closed := SqlState(s.engine, None);
      if s.engine.Some? && disposeError.Some? then (Err(DriverError(disposeError.value)), closed)
      else (Ok(()), SqlState(None, None))
  }

  /** A disconnect that raises passes on the close error when there was a
      connection to close, and otherwise the dispose error; one that
      succeeds leaves neither connection nor engine, and with nothing open
      it always succeeds. */
  lemma SqlDisconnectSpec(s: SqlState, closeError: Option<string>, disposeError: Option<string>)
    ensures var (r, s') := SqlDisconnect(s, closeError, disposeError);
      && (r.Err? <==> (s.connection.Some? && closeError.Some?) || (s.engine.Some? && disposeError.Some?))
      && (s.connection.Some? && closeError.Some? ==> r == Err(DriverError(closeError.value)) && s' == s)
      && (!(s.connection.Some? && closeError.Some?) && s.engine.Some? && disposeError.Some? ==>
            r == Err(DriverError(disposeError.value)) && s' == SqlState(s.engine, None))
      && (r.Ok? ==> s' == SqlState(None, None))
      && (s.connection.None? && s.engine.None? ==> r.Ok? && s' == s)
  {
  }

  class SqlManager {
    const databaseType: string
    const connectionParams: Params
    var connection: Option<Connection>
    var engine: Option<Engine>

    constructor (databaseType: string, connectionParams: Params)
      ensures this.databaseType == databaseType && this.connectionParams == connectionParams
      ensures connection == None && engine == None
    {
      this.databaseType := databaseType;
      this.connectionParams := connectionParams;
      connection := None;
      engine := None;
    }

    function State(): SqlState
      reads this
    {
      SqlState(engine, connection)
    }

    predicate IsConnected()
      reads this
    {
      connection.Some?
    }

    /** SQLDatabaseManager.connect, step by step. */
    method Connect(d: SqlDriver) returns (r: Result<Connection, Error>)
      modifies this
      ensures (r, State()) == SqlConnect(connectionParams, old(State()), d)
    {
      if connection.Some? {
        return Ok(connection.value);
      }
      var cs: string;
      if "file_path" in connectionParams {
        cs := "sqlite:///" + connectionParams["file_path"];
      } else {
        if "url" !in connectionParams {
          return Err(ConnectionError(SqlErrorMessage("'url'")));
        }
        var url := connectionParams["url"];
        if "username" in connectionParams {
          if "password" !in connectionParams {
            return Err(ConnectionError(SqlErrorMessage("'password'")));
          }
          var credentials := connectionParams["username"] + ":" + connectionParams["password"];
          url := ReplaceAll(url, "://", "://" + credentials + "@");
        }
        cs := url;
      }
      assert ConnectionString(connectionParams) == Ok(cs);
      if d.createEngine.Err? {
        return Err(ConnectionError(SqlErrorMessage(d.createEngine.error)));
      }
      engine := Some(Engine(cs, d.createEngine.value));
      if d.firstConnect.Err? {
        return Err(ConnectionError(SqlErrorMessage(d.firstConnect.error)));
      }
      connection := Some(SqlConnection(engine.value, d.firstConnect.value));
      if d.secondConnect.Err? {
        return Err(ConnectionError(SqlErrorMessage(d.secondConnect.error)));
      }
      connection := Some(SqlConnection(engine.value, d.secondConnect.value));
      r := Ok(connection.value);
    }

    /** SQLDatabaseManager.query; `execute` is what the driver does with the query text. */
    method Query(query: string, execute: Result<nat, string>) returns (r: Result<nat, Error>)
      ensures r == QueryOutcome(IsConnected(), execute)
      ensures !IsConnected() ==> r == Err(ConnectionError("Database not connected"))
    {
      if connection.None? {
        return Err(ConnectionError("Database not connected"));
      }
      match execute
      case Ok(rows) => r := Ok(rows);
      case Err(m) => r := Err(QueryFailed("Query execution failed: " + m));
    }

    /** SQLDatabaseManager.disconnect: close the connection, then dispose of
        the engine; `closeError` and `disposeError` are what the driver raises,
        if anything. With nothing open it does nothing, so calling it again
        is harmless. */
    method Disconnect(closeError: Option<string>, disposeError: Option<string>) returns (r: Result<(), Error>)
      modifies this
      ensures (r, State()) == SqlDisconnect(old(State()), closeError, disposeError)
      ensures old(connection).Some? && closeError.Some? ==>
        r == Err(DriverError(closeError.value)) && unchanged(this)
      ensures old(connection).None? || closeError.None? ==>
        && connection == None
        && (old(engine).Some? && disposeError.Some? ==>
              r == Err(DriverError(disposeError.value)) && engine == old(engine))
        && (old(engine).None? || disposeError.None? ==> r == Ok(()) && engine == None)
      ensures old(connection).None? && old(engine).None? ==> r == Ok(()) && unchanged(this)
    {
      if connection.Some? {
        if closeError.Some? {
          return Err(DriverError(closeError.value));
        }
        connection := None;
      }
      if engine.Some? {
        if disposeError.Some? {
          return Err(DriverError(disposeError.value));
        }
        engine := None;
      }
      r := Ok(());
    }
  }

  // ---------------------------------------------------------------------
  // NoSQL manager
  // ---------------------------------------------------------------------

  const NoSqlFailurePrefix: string := "Failed to connect to NoSQL database: "

  /** The MongoClient arguments: the URL when given, otherwise host and port
      with their defaults and the optional credentials. */
  function MongoTargetOf(params: Params): (t: MongoTarget)
  {
    if "url" in params then MongoUrl(params["url"])
    else MongoHost(
      GetOr(Get(params, "host"), DefaultMongoHost),
      if "port" in params then PortParam(params["port"]) else PortNumber(DefaultMongoPort),
      Get(params, "username"),
      Get(params, "password"))
  }

  /** With neither URL nor host MongoDB is reached at localhost:27017. */
  lemma MongoDefaults(params: Params)
    requires "url" !in params && "host" !in params && "port" !in params
    ensures MongoTargetOf(params).host == "localhost"
    ensures MongoTargetOf(params).port == PortNumber(27017)
  {
  }

  /** NoSQLDatabaseManager.connect as a transition; `client` is what the
      MongoDB or Qdrant client constructor does. */
  function NoSqlConnect(databaseType: string, params: Params, connection: Option<Connection>, client: Result<nat, string>)
    : (Result<Connection, Error>, Option<Connection>)
  {
    if connection.Some? then (Ok(connection.value), connection)
    else
      var dbType := Lower(databaseType);
      if dbType == "mongodb" || dbType == "qdrant" then
        match client
        case Err(m) => (Err(ConnectionError(NoSqlFailurePrefix + m)), connection)
        case Ok(h) =>
          var c := if dbType == "mongodb" then MongoConnection(MongoTargetOf(params), h)
                   else QdrantConnection(Get(params, "url"), Get(params, "api_key"), h);
          (Ok(c), Some(c))
      else
        (Err(ConnectionError(NoSqlFailurePrefix + "Unsupported NoSQL database type: " + dbType)), connection)
  }

  /** A type other than MongoDB and Qdrant never connects: the ValueError
      naming it comes back wrapped in a ConnectionError. */
  lemma NoSqlUnsupported(databaseType: string, params: Params, client: Result<nat, string>)
    requires Lower(databaseType) != "mongodb" && Lower(databaseType) != "qdrant"
    ensures NoSqlConnect(databaseType, params, None, client) ==
      (Err(ConnectionError(NoSqlFailurePrefix + "Unsupported NoSQL database type: " + Lower(databaseType))), None)
  {
  }

  /** A NoSQL connect succeeds exactly when the type is supported and the
      client is built, and then the manager keeps that client. */
  lemma NoSqlConnectSuccess(databaseType: string, params: Params, client: Result<nat, string>)
    ensures var (r, c) := NoSqlConnect(databaseType, params, None, client);
      && (r.Ok? <==> (Lower(databaseType) == "mongodb" || Lower(databaseType) == "qdrant") && client.Ok?)
      && (r.Ok? ==> c == Some(r.value))
      && (r.Err? ==> c == None && r.error.ConnectionError?)
      && (r.Ok? && Lower(databaseType) == "mongodb" ==> r.value.MongoConnection? && r.value.target == MongoTargetOf(params))
  {
  }

  /** NoSQLDatabaseManager.disconnect as a transition: a MongoDB client is
      closed (`closeError` is what that raises, if anything), a Qdrant or
      any other client is just dropped. */
  function NoSqlDisconnect(databaseType: string, connection: Option<Connection>, closeError: Option<string>)
    : (Result<(), Error>, Option<Connection>)
  {
    if connection.None? then (Ok(()), None)
    else if Lower(databaseType) == "mongodb" && closeError.Some? then (Err(DriverError(closeError.value)), connection)
    else (Ok(()), None)
  }

  class NoSqlManager {
    const databaseType: string
    const connectionParams: Params
    var connection: Option<Connection>

    constructor (databaseType: string, connectionParams: Params)
      ensures this.databaseType == databaseType && this.connectionParams == connectionParams
      ensures connection == None
    {
      this.databaseType := databaseType;
      this.connectionParams := connectionParams;
      connection := None;
    }

    predicate IsConnected()
      reads this
    {
      connection.Some?
    }

    /** NoSQLDatabaseManager.connect. */
    method Connect(client: Result<nat, string>) returns (r: Result<Connection, Error>)
      modifies this
      ensures (r, connection) == NoSqlConnect(databaseType, connectionParams, old(connection), client)
    {
      if connection.Some? {
        return Ok(connection.value);
      }
      var dbType := Lower(databaseType);
      if dbType == "mongodb" {
        if client.Err? {
          return Err(ConnectionError(NoSqlFailurePrefix + client.error));
        }
        connection := Some(MongoConnection(MongoTargetOf(connectionParams), client.value));
      } else if dbType == "qdrant" {
        if client.Err? {
          return Err(ConnectionError(NoSqlFailurePrefix + client.error));
        }
        connection := Some(QdrantConnection(Get(connectionParams, "url"), Get(connectionParams, "api_key"), client.value));
      } else {
        return Err(ConnectionError(NoSqlFailurePrefix + "Unsupported NoSQL database type: " + dbType));
      }
      r := Ok(connection.value);
    }

    /** NoSQLDatabaseManager.query: the guard and the wrapping of failures;
        `execute` stands for the JSON parsing and the driver call. */
    method Query(query: string, execute: Result<nat, string>) returns (r: Result<nat, Error>)
      ensures r == QueryOutcome(IsConnected(), execute)
      ensures !IsConnected() ==> r == Err(ConnectionError("Database not connected"))
    {
      if connection.None? {
        return Err(ConnectionError("Database not connected"));
      }
      match execute
      case Ok(rows) => r := Ok(rows);
      case Err(m) => r := Err(QueryFailed("Query execution failed: " + m));
    }

    /** NoSQLDatabaseManager.disconnect: a MongoDB client is closed
        (`closeError` is what that raises, if anything), a Qdrant client is
        just dropped. Without a connection it does nothing. */
    method Disconnect(closeError: Option<string>) returns (r: Result<(), Error>)
      modifies this
      ensures (r, connection) == NoSqlDisconnect(databaseType, old(connection), closeError)
      ensures old(connection).Some? && Lower(databaseType) == "mongodb" && closeError.Some? ==>
        r == Err(DriverError(closeError.value)) && unchanged(this)
      ensures !(old(connection).Some? && Lower(databaseType) == "mongodb" && closeError.Some?) ==>
        r == Ok(()) && connection == None
    {
      if connection.Some? {
        if Lower(databaseType) == "mongodb" && closeError.Some? {
          return Err(DriverError(closeError.value));
        }
        connection := None;
      }
      r := Ok(());
    }
  }

  // ---------------------------------------------------------------------
  // Front object
  // ---------------------------------------------------------------------

  /** What a connect attempt meets in whichever driver the manager uses. */
  datatype DriverOutcomes = DriverOutcomes(sql: SqlDriver, client: Result<nat, string>)

  /** The dictionary get_connection_info returns. */
  datatype ConnectionInfo = ConnectionInfo(
    status: string,
    databaseType: string,
    lastError: Option<string>,
    connectedSince: Option<Timestamp>,
    isConnected: bool)

  class Database {
    const databaseType: string
    const connectionParams: Params
    const sql: SqlManager?
    const nosql: NoSqlManager?
    var status: Status
    var lastError: Option<string>
    var connectionTimestamp: Option<Timestamp>

    /** Exactly one manager, of the kind the type calls for, sharing the
        type and the parameters. */
    predicate Valid()
      reads this
    {
      && (sql != null <==> IsSqlType(databaseType))
      && (nosql != null <==> !IsSqlType(databaseType))
      && (sql != null ==> sql.databaseType == databaseType && sql.connectionParams == connectionParams)
      && (nosql != null ==> nosql.databaseType == databaseType && nosql.connectionParams == connectionParams)
    }

    constructor (databaseType: string, connectionParams: Params)
      requires Validate(databaseType, connectionParams).None?
      ensures this.databaseType == databaseType && this.connectionParams == connectionParams
      ensures Valid() && (sql != null ==> fresh(sql)) && (nosql != null ==> fresh(nosql))
      ensures status == Disconnected && lastError == None && connectionTimestamp == None
      ensures !IsConnected()
    {
      this.databaseType := databaseType;
      this.connectionParams := connectionParams;
      if IsSqlType(databaseType) {
        var m := new SqlManager(databaseType, connectionParams);
        sql := m;
        nosql := null;
      } else {
        var m := new NoSqlManager(databaseType, connectionParams);
        sql := null;
        nosql := m;
      }
      status := Disconnected;
      lastError := None;
      connectionTimestamp := None;
    }

    /** DatabaseManager.__init__: the type is lower-cased and the parameters
        validated before any manager is built; invalid parameters raise. */
    static method Create(databaseType: string, connectionParams: Params) returns (r: Result<Database, Error>)
      ensures var t := Lower(databaseType);
        && (r.Err? <==> Validate(t, connectionParams).Some?)
        && (r.Err? ==> r.error == ValueError(Validate(t, connectionParams).value))
      ensures r.Ok? ==>
        && fresh(r.value) && r.value.Valid()
        && r.value.databaseType == Lower(databaseType) && r.value.connectionParams == connectionParams
        && r.value.status == Disconnected && r.value.lastError == None
        && r.value.connectionTimestamp == None && !r.value.IsConnected()
    {
      var t := Lower(databaseType);
      var problem := Validate(t, connectionParams);
      if problem.Some? {
        return Err(ValueError(problem.value));
      }
      var d := new Database(t, connectionParams);
      r := Ok(d);
    }

    /** The `is_connected` property: the manager holds a connection. */
    predicate IsConnected()
      reads this, sql, nosql
    {
      if sql != null then sql.connection.Some?
      else if nosql != null then nosql.connection.Some?
      else false
    }

    /** get_connection_info. */
    function Info(): (info: ConnectionInfo)
      reads this, sql, nosql
      ensures info.status == StatusText(status) && info.databaseType == databaseType
      ensures info.isConnected == IsConnected()
      ensures info.lastError == lastError && info.connectedSince == connectionTimestamp
    {
      ConnectionInfo(StatusText(status), databaseType, lastError, connectionTimestamp, IsConnected())
    }

    /** create_connection: the manager connects; success records the time and
        clears the last error, failure records the error text and re-raises. */
    method CreateConnection(d: DriverOutcomes, now: Timestamp) returns (r: Result<(), Error>)
      requires Valid()
      modifies this, sql, nosql
      ensures Valid()
      ensures sql != null ==> (var (res, s) := SqlConnect(connectionParams, old(sql.State()), d.sql);
        sql.State() == s && (r.Ok? <==> res.Ok?) && (res.Err? ==> r == Err(res.error)))
      ensures nosql != null ==> (var (res, c) := NoSqlConnect(databaseType, connectionParams, old(nosql.connection), d.client);
        nosql.connection == c && (r.Ok? <==> res.Ok?) && (res.Err? ==> r == Err(res.error)))
      ensures r.Ok? ==> status == Connected && connectionTimestamp == Some(now) && lastError == None
      ensures r.Err? ==>
        status == Failed && lastError == Some(r.error.message) && connectionTimestamp == old(connectionTimestamp)
    {
      var res: Result<Connection, Error>;
      if sql != null {
        res := sql.Connect(d.sql);
      } else {
        res := nosql.Connect(d.client);
      }
      if res.Err? {
        status := Failed;
        lastError := Some(res.error.message);
        return Err(res.error);
      }
      status := Connected;
      connectionTimestamp := Some(now);
      lastError := None;
      r := Ok(());
    }

    /** disconnect: the manager disconnects; success clears the time stamp
        and keeps the last error, failure records the error and re-raises. */
    method Disconnect(closeError: Option<string>, disposeError: Option<string>) returns (r: Result<(), Error>)
      requires Valid()
      modifies this, sql, nosql
      ensures Valid()
      ensures r.Ok? ==>
        status == Disconnected && connectionTimestamp == None && lastError == old(lastError) && !IsConnected()
      ensures r.Err? ==>
        status == Failed && lastError == Some(r.error.message) && connectionTimestamp == old(connectionTimestamp)
      ensures sql != null ==> (var (res, s) := SqlDisconnect(old(sql.State()), closeError, disposeError);
        sql.State() == s && r == res)
      ensures nosql != null ==> (var (res, c) := NoSqlDisconnect(databaseType, old(nosql.connection), closeError);
        nosql.connection == c && r == res)
      ensures old(!IsConnected()) && (sql == null || old(sql.engine).None?) ==> r.Ok?
    {
      if sql != null {
        r := sql.Disconnect(closeError, disposeError);
      } else {
        r := nosql.Disconnect(closeError);
      }
      if r.Err? {
        status := Failed;
        lastError := Some(r.error.message);
        return;
      }
      status := Disconnected;
      connectionTimestamp := None;
    }
  }
}
