/**
 * An abstract SQL server standing in for `database/sql` and the SQL Server
 * driver. The server remembers which logical databases exist, every
 * connection string a session was opened with, and every statement it has
 * executed. Whether a connection, a statement or a scalar query fails is
 * decided by an oracle that may look at the whole server state, so a server
 * that is "not ready yet" and later becomes ready can be described.
 * SQL itself is not interpreted, except that a statement of the form
 * `create database <name>` creates <name> and fails if <name> already exists.
 */
module Engine {
  import opened Wrappers

  /** A statement the server executed, with the connection string of the session that sent it. */
  datatype Stmt = Stmt(dsn: string, text: string)

  datatype State = State(databases: set<string>, dials: seq<string>, log: seq<Stmt>)

  /** A session, identified by the connection string it was opened with. */
  datatype Conn = Conn(dsn: string)

  datatype DriverError =
    | DialFailed(dsn: string)
    | ExecFailed(dsn: string, stmt: string)
    | DatabaseExists(name: string)
    | ScanFailed(dsn: string, query: string)

  /** Failure oracle; `scan` gives None when the row cannot be scanned into an integer. */
  datatype Oracle = Oracle(
    dialFails: (State, string) -> bool,
    execFails: (State, string, string) -> bool,
    scan: (State, string, string) -> Option<int>)

  datatype Opened = Opened(conn: Result<Conn, DriverError>, post: State)

  datatype Step = Step(err: Option<DriverError>, post: State)

  const CreateDatabase := "create database "

  /** The database a `create database <name>` statement creates, if `q` is one. */
  function CreatedName(q: string): (r: Option<string>)
    ensures r.Some? ==> q == CreateDatabase + r.value
  {
    if |q| >= |CreateDatabase| && q[..|CreateDatabase|] == CreateDatabase
    then Some(q[|CreateDatabase|..])
    else None
  }

  lemma CreatedNameOfCreate(name: string)
    ensures CreatedName(CreateDatabase + name) == Some(name)
  {
  }

  /** The server's wording of a driver error. */
  function Describe(e: DriverError): string {
    match e
    case DialFailed(dsn) => "cannot open session: " + dsn
    case ExecFailed(_, stmt) => "statement failed: " + stmt
    case DatabaseExists(name) => "database '" + name + "' already exists"
    case ScanFailed(_, query) => "cannot scan result of: " + query
  }

  /** The databases executing `q` creates. */
  function Creates(q: string): set<string> {
    if CreatedName(q).Some? then {CreatedName(q).value} else {}
  }

  /** Opening a session records its connection string; the oracle decides whether it fails. */
  function OpenStep(o: Oracle, s: State, dsn: string): Opened {
    Opened(if o.dialFails(s, dsn) then Failure(DialFailed(dsn)) else Success(Conn(dsn)),
           s.(dials := s.dials + [dsn]))
  }

  /** Why executing `q` on a session opened with `dsn` fails in state `s`, if it does. */
  function ExecError(o: Oracle, s: State, dsn: string, q: string): Option<DriverError> {
    if o.execFails(s, dsn, q) then Some(ExecFailed(dsn, q))
    else match CreatedName(q)
      case Some(name) => if name in s.databases then Some(DatabaseExists(name)) else None
      case None => None
  }

  /** A failed statement leaves the server as it was; a successful one is logged and applied. */
  function ExecStep(o: Oracle, s: State, c: Conn, q: string): Step {
    match ExecError(o, s, c.dsn, q)
    case Some(e) => Step(Some(e), s)
    case None =>
      Step(None, State(s.databases + Creates(q), s.dials, s.log + [Stmt(c.dsn, q)]))
  }

  /**
   * Runs a single-row, single-column query and scans the value into an
   * integer. A query only reads the server, so it is a function of its state.
   */
  function ScanStep(o: Oracle, s: State, c: Conn, q: string): Result<int, DriverError> {
    match o.scan(s, c.dsn, q)
    case Some(v) => Success(v)
    case None => Failure(ScanFailed(c.dsn, q))
  }

  /** The server in the container, whose state the preset changes through sessions. */
  class Server {
    const oracle: Oracle
    var databases: set<string>
    var dials: seq<string>
    var log: seq<Stmt>

    function Snapshot(): State
      reads this
    {
      State(databases, dials, log)
    }

    constructor (oracle: Oracle, initial: State)
      ensures this.oracle == oracle && Snapshot() == initial
    {
      this.oracle := oracle;
      databases := initial.databases;
      dials := initial.dials;
      log := initial.log;
    }

    method Open(dsn: string) returns (r: Result<Conn, DriverError>)
      modifies this
      ensures r == OpenStep(oracle, old(Snapshot()), dsn).conn
      ensures Snapshot() == OpenStep(oracle, old(Snapshot()), dsn).post
    {
      r := if oracle.dialFails(Snapshot(), dsn) then Failure(DialFailed(dsn)) else Success(Conn(dsn));
      dials := dials + [dsn];
    }

    method Exec(c: Conn, q: string) returns (err: Option<DriverError>)
      modifies this
      ensures err == ExecStep(oracle, old(Snapshot()), c, q).err
      ensures Snapshot() == ExecStep(oracle, old(Snapshot()), c, q).post
    {
      err := ExecError(oracle, Snapshot(), c.dsn, q);
      if err.None? {
        databases := databases + Creates(q);
        log := log + [Stmt(c.dsn, q)];
      }
    }
  }
}
