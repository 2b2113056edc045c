/**
 * Dependency inversion: a password reminder that talks to a database only
 * through a connection abstraction (connect, query, disconnect), with two
 * real drivers that refuse queries while disconnected and a mock that logs
 * every statement it is given.
 */
module DependencyInversion {
  import opened Wrappers

  /** The message a driver throws when queried while disconnected. */
  const NotConnected: string := "Not connected to database"

  /** PHP truthiness of a string: only "" and "0" are false. */
  predicate Truthy(s: string) { s != "" && s != "0" }

  /** MySQL driver. The host and credentials it stores are only printed, so they are not modelled. */
  class MySQLConnection {
    var connected: bool

    constructor ()
      ensures !connected
    {
      connected := false;
    }

    method Connect() returns (resource: string)
      modifies this
      ensures connected
      ensures resource == "mysql_connection_resource"
    {
      connected := true;
      resource := "mysql_connection_resource";
    }

    /** Fails unless connected; changes nothing either way. */
    method Query(sql: string) returns (r: Result<string>)
      ensures r.Ok? <==> connected
      ensures r.Ok? ==> r.value == "mysql_result" && Truthy(r.value)
      ensures r.Err? ==> r.message == NotConnected
    {
      if !connected {
        return Err(NotConnected);
      }
      r := Ok("mysql_result");
    }

    method Disconnect()
      modifies this
      ensures !connected
    {
      connected := false;
    }
  }

  /** PostgreSQL driver: the same state machine as the MySQL one, with its own tokens. */
  class PostgreSQLConnection {
    var connected: bool

    constructor ()
      ensures !connected
    {
      connected := false;
    }

    method Connect() returns (resource: string)
      modifies this
      ensures connected
      ensures resource == "postgresql_connection_resource"
    {
      connected := true;
      resource := "postgresql_connection_resource";
    }

    /** Fails unless connected; changes nothing either way. */
    method Query(sql: string) returns (r: Result<string>)
      ensures r.Ok? <==> connected
      ensures r.Ok? ==> r.value == "postgresql_result" && Truthy(r.value)
      ensures r.Err? ==> r.message == NotConnected
    {
      if !connected {
        return Err(NotConnected);
      }
      r := Ok("postgresql_result");
    }

    method Disconnect()
      modifies this
      ensures !connected
    {
      connected := false;
    }
  }

  /** Test double: never fails, and keeps every statement it is given, in call order. */
  class MockConnection {
    var queries: seq<string>

    constructor ()
      ensures queries == []
    {
      queries := [];
    }

    method Connect() returns (resource: string)
      ensures resource == "mock_connection"
    {
      resource := "mock_connection";
    }

    method Query(sql: string) returns (r: Result<string>)
      modifies this
      ensures queries == old(queries) + [sql]
      ensures r == Ok("mock_result")
    {
      queries := queries + [sql];
      r := Ok("mock_result");
    }

    /** Closing the mock does nothing: the log survives it. */
    method Disconnect()
      ensures queries == old(queries)
    {
    }

    method GetQueries() returns (log: seq<string>)
      ensures log == queries
    {
      log := queries;
    }
  }

  /** A value implementing the connection interface. */
  datatype Connection =
    | MySQL(mysql: MySQLConnection)
    | PostgreSQL(postgresql: PostgreSQLConnection)
    | Mock(mock: MockConnection)
  {
    /** The driver object behind the interface. */
    function Target(): object
    {
      match this
      case MySQL(c) => c
      case PostgreSQL(c) => c
      case Mock(c) => c
    }

    /** The token `connect` returns. */
    function ResourceToken(): string
    {
      match this
      case MySQL(_) => "mysql_connection_resource"
      case PostgreSQL(_) => "postgresql_connection_resource"
      case Mock(_) => "mock_connection"
    }

    /** The value a successful `query` returns. */
    function ResultToken(): string
    {
      match this
      case MySQL(_) => "mysql_result"
      case PostgreSQL(_) => "postgresql_result"
      case Mock(_) => "mock_result"
    }

    /** Whether a query would be accepted now; the mock accepts queries in any state. */
    predicate Ready()
      reads Target()
    {
      match this
      case MySQL(c) => c.connected
      case PostgreSQL(c) => c.connected
      case Mock(_) => true
    }

    /** Whether a driver with a connected flag has it set. */
    predicate Connected()
      reads Target()
    {
      match this
      case MySQL(c) => c.connected
      case PostgreSQL(c) => c.connected
      case Mock(_) => false
    }
  }

  method ConnectTo(c: Connection) returns (resource: string)
    modifies c.Target()
    ensures resource == c.ResourceToken()
    ensures c.Ready()
    ensures c.Mock? ==> c.mock.queries == old(c.mock.queries)
  {
    match c
    case MySQL(m) => resource := m.Connect();
    case PostgreSQL(p) => resource := p.Connect();
    case Mock(k) => resource := k.Connect();
  }

  method QueryOn(c: Connection, sql: string) returns (r: Result<string>)
    modifies c.Target()
    ensures r.Ok? <==> old(c.Ready())
    ensures r.Ok? ==> r.value == c.ResultToken() && Truthy(r.value)
    ensures r.Err? ==> r.message == NotConnected
    ensures c.Ready() == old(c.Ready()) && c.Connected() == old(c.Connected())
    ensures c.Mock? ==> c.mock.queries == old(c.mock.queries) + [sql]
  {
    match c
    case MySQL(m) => r := m.Query(sql);
    case PostgreSQL(p) => r := p.Query(sql);
    case Mock(k) => r := k.Query(sql);
  }

  method DisconnectFrom(c: Connection)
    modifies c.Target()
    ensures !c.Connected()
    ensures c.Mock? ==> c.mock.queries == old(c.mock.queries)
  {
    match c
    case MySQL(m) => m.Disconnect();
    case PostgreSQL(p) => p.Disconnect();
    case Mock(k) => k.Disconnect();
  }

  /** The statement the reminder runs for an address. */
  function UserLookup(email: string): (sql: string)
    ensures |sql| == |email| + 36
    ensures sql[..35] == "SELECT * FROM users WHERE email = '"
    ensures sql[35..35 + |email|] == email
    ensures sql[|sql| - 1] == '\''
  {
    "SELECT * FROM users WHERE email = '" + email + "'"
  }

  /** Different addresses give different statements, so the mock's log identifies the address. */
  lemma UserLookupInjective(a: string, b: string)
    requires UserLookup(a) == UserLookup(b)
    ensures a == b
  {
    assert a == UserLookup(a)[35..35 + |a|];
  }

  class PasswordReminder {
    const connection: Connection

    constructor (connection: Connection)
      ensures this.connection == connection
    {
      this.connection := connection;
    }

    /**
     * Connects, runs the lookup for `email`, and disconnects. A query that
     * threw would end the call before the disconnect; the result is Ok(sent)
     * otherwise, where `sent` says whether the reminder was sent.
     */
    method SendReminder(email: string) returns (outcome: Result<bool>)
      modifies connection.Target()
      ensures outcome == Ok(true)
      ensures !connection.Connected()
      ensures connection.Mock? ==> connection.mock.queries == old(connection.mock.queries) + [UserLookup(email)]
    {
      var _ := ConnectTo(connection);
      var result := QueryOn(connection, UserLookup(email));
      match result
      case Err(message) =>
        outcome := Err(message);
      case Ok(value) =>
        DisconnectFrom(connection);
        outcome := Ok(Truthy(value));
    }
  }

  /** Which real driver to exercise. */
  datatype Engine = MySQLEngine | PostgreSQLEngine

  /**
   * A fresh driver of either engine, queried before connecting, while
   * connected and after disconnecting.
   */
  method QueryLifecycle(engine: Engine, sql: string) returns (before: Result<string>, during: Result<string>, after: Result<string>)
    ensures before == Err(NotConnected) && after == Err(NotConnected)
    ensures during == Ok(if engine == MySQLEngine then "mysql_result" else "postgresql_result")
  {
    var c: Connection;
    if engine == MySQLEngine {
      var m := new MySQLConnection();
      c := MySQL(m);
    } else {
      var p := new PostgreSQLConnection();
      c := PostgreSQL(p);
    }
    before := QueryOn(c, sql);
    var _ := ConnectTo(c);
    during := QueryOn(c, sql);
    DisconnectFrom(c);
    after := QueryOn(c, sql);
  }

  /** A reminder sent through a fresh mock leaves exactly one statement in its log. */
  method RemindThroughMock(email: string) returns (log: seq<string>)
    ensures log == [UserLookup(email)]
  {
    var mock := new MockConnection();
    var reminder := new PasswordReminder(Mock(mock));
    var _ := reminder.SendReminder(email);
    log := mock.GetQueries();
  }
}
