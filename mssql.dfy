/**
 * The Microsoft SQL Server preset: the options it hands to the container
 * runtime, the connection strings it builds, the readiness probe, and the
 * initializer that creates the configured database and runs the seed
 * statements. Sessions and statements go to the abstract server of module
 * Engine.
 */
module Mssql {
  import opened Wrappers
  import opened Decimal
  import opened Engine

  const MasterDB := "master"
  const Image := "mcr.microsoft.com/mssql/server"
  const SaPassword := "SA_PASSWORD="
  const AcceptEula := "ACCEPT_EULA=Y"
  const WaitTimeoutSeconds := 30
  const HealthQuery := "select 1"

  /** The preset's configuration; it is never changed after construction. */
  datatype MSSQL = MSSQL(db: string, password: string, queries: seq<string>, license: bool)

  /**
   * The options handed to the container runtime, as tagged values. The health
   * check and the init routine are named by the preset (and seed list) they
   * run with.
   */
  datatype Opt =
    | WithHealthCheck(preset: MSSQL)
    | WithEnv(entry: string)
    | WithInit(preset: MSSQL, queries: seq<string>)
    | WithWaitTimeout(seconds: nat)

  /** The environment entries among `opts`, in order. */
  function EnvEntries(opts: seq<Opt>): seq<string>
    decreases |opts|
  {
    if opts == [] then []
    else (if opts[0].WithEnv? then [opts[0].entry] else []) + EnvEntries(opts[1..])
  }

  // ---------------------------------------------------------------------------
  // Options

  method Options(p: MSSQL) returns (opts: seq<Opt>)
    ensures |opts| == if p.license then 5 else 4
    ensures opts[..4] == [WithHealthCheck(p), WithEnv(SaPassword + p.password),
                          WithInit(p, p.queries), WithWaitTimeout(WaitTimeoutSeconds)]
    ensures (WithEnv(AcceptEula) in opts) <==> p.license
    ensures p.license ==> opts[|opts| - 1] == WithEnv(AcceptEula)
    ensures EnvEntries(opts) == [SaPassword + p.password] + (if p.license then [AcceptEula] else [])
  {
    opts := [
      WithHealthCheck(p),
      WithEnv("SA_PASSWORD=" + p.password),
      WithInit(p, p.queries),
      WithWaitTimeout(30)
    ];
    assert opts[1].entry[0] != AcceptEula[0];
    assert EnvEntries(opts[3..]) == [];
    assert EnvEntries(opts[1..]) == [SaPassword + p.password];

    if p.license {
      opts := opts + [WithEnv("ACCEPT_EULA=Y")];
      assert EnvEntries(opts[4..]) == [AcceptEula];
      assert EnvEntries(opts[3..]) == [AcceptEula];
      assert EnvEntries(opts[2..]) == [AcceptEula];
    }
  }

  // ---------------------------------------------------------------------------
  // Connection strings

  /** The connection string for database `db`, always as user `sa`; nothing is escaped. */
  function ConnString(password: string, addr: string, db: string): string {
    "sqlserver://sa:" + password + "@" + addr + "?database=" + db
  }

  datatype ConnParams = ConnParams(user: string, password: string, addr: string, db: string)

  const Scheme := "sqlserver://"
  const DatabaseParam := "database="

  /** Index of the first `c` in `s`, or |s| when there is none. */
  function IndexOf(s: string, c: char): (i: nat)
    ensures i <= |s|
    ensures i < |s| ==> s[i] == c
    ensures forall j :: 0 <= j < i ==> s[j] != c
    decreases |s|
  {
    if s == [] then 0 else if s[0] == c then 0 else 1 + IndexOf(s[1..], c)
  }

  /** Index of the last `c` in `s`, if any. */
  function LastIndexOf(s: string, c: char): (r: Option<nat>)
    ensures r.Some? ==> r.value < |s| && s[r.value] == c
    ensures r.Some? ==> forall j :: r.value < j < |s| ==> s[j] != c
    ensures r.None? ==> c !in s
    decreases |s|
  {
    if s == [] then None
    else if s[|s| - 1] == c then Some(|s| - 1)
    else LastIndexOf(s[..|s| - 1], c)
  }

  datatype Authority = Authority(user: string, password: string, addr: string)

  /** The user information ends at the last '@', the user name at the first ':'. */
  function ParseAuthority(authority: string): Option<Authority> {
    match LastIndexOf(authority, '@')
    case None => None
    case Some(at) =>
      var userinfo := authority[..at];
      var colon := IndexOf(userinfo, ':');
      if colon == |userinfo| then None
      else Some(Authority(userinfo[..colon], userinfo[colon + 1..], authority[at + 1..]))
  }

  /** The query must be `database=<name>`. */
  function ParseQuery(query: string): Option<string> {
    if |query| >= |DatabaseParam| && query[..|DatabaseParam|] == DatabaseParam
    then Some(query[|DatabaseParam|..])
    else None
  }

  /** Reads a connection string back; the authority ends at the first '?'. */
  function ParseConnString(s: string): Option<ConnParams> {
    if !(|s| >= |Scheme| && s[..|Scheme|] == Scheme) then None
    else
      var rest := s[|Scheme|..];
      var q := IndexOf(rest, '?');
      if q == |rest| then None
      else
        match (ParseAuthority(rest[..q]), ParseQuery(rest[q + 1..]))
        case (Some(a), Some(db)) => Some(ConnParams(a.user, a.password, a.addr, db))
        case _ => None
  }

  lemma IndexOfFirst(s: string, c: char, i: nat)
    requires i < |s| && s[i] == c
    requires forall j :: 0 <= j < i ==> s[j] != c
    ensures IndexOf(s, c) == i
  {
  }

  lemma LastIndexOfLast(s: string, c: char, i: nat)
    requires i < |s| && s[i] == c
    requires forall j :: i < j < |s| ==> s[j] != c
    ensures LastIndexOf(s, c) == Some(i)
  {
  }

  lemma AuthorityRoundTrip(password: string, addr: string)
    requires '@' !in addr
    ensures ParseAuthority("sa:" + password + "@" + addr) == Some(Authority("sa", password, addr))
  {
    var userinfo := "sa:" + password;
    var authority := userinfo + "@" + addr;
    assert authority == "sa:" + password + "@" + addr;
    LastIndexOfLast(authority, '@', |userinfo|);
    assert authority[..|userinfo|] == userinfo;
    assert authority[|userinfo| + 1..] == addr;
    IndexOfFirst(userinfo, ':', 2);
    assert userinfo[..2] == "sa";
    assert userinfo[3..] == password;
  }

  lemma QueryRoundTrip(db: string)
    ensures ParseQuery(DatabaseParam + db) == Some(db)
  {
  }

  /**
   * The connection string is read back to the user `sa` and the three values
   * it was built from, as long as the password holds no '?' and the address
   * neither '@' nor '?'.
   */
  lemma ConnStringRoundTrip(password: string, addr: string, db: string)
    requires '?' !in password
    requires '@' !in addr && '?' !in addr
    ensures ParseConnString(ConnString(password, addr, db)) == Some(ConnParams("sa", password, addr, db))
  {
    var s := ConnString(password, addr, db);
    var authority := "sa:" + password + "@" + addr;
    var query := DatabaseParam + db;
    var rest := authority + "?" + query;
    assert s == Scheme + rest;
    assert s[..|Scheme|] == Scheme;
    assert s[|Scheme|..] == rest;
    assert forall j :: 0 <= j < |authority| ==> rest[j] == authority[j];
    IndexOfFirst(rest, '?', |authority|);
    assert rest[..|authority|] == authority;
    assert rest[|authority| + 1..] == query;
    AuthorityRoundTrip(password, addr);
    QueryRoundTrip(db);
  }

  /** Nothing is escaped: a '@' in the address reads as part of the password. */
  lemma ConnStringUnescaped(password: string, middle: string, addr: string, db: string)
    ensures ConnString(password + "@" + middle, addr, db) == ConnString(password, middle + "@" + addr, db)
    ensures '?' !in password + "@" + middle && '@' !in addr && '?' !in addr ==>
      ParseConnString(ConnString(password, middle + "@" + addr, db)) == Some(ConnParams("sa", password + "@" + middle, addr, db))
  {
    assert (password + "@" + middle) + "@" + addr == password + "@" + (middle + "@" + addr);
    if '?' !in password + "@" + middle && '@' !in addr && '?' !in addr {
      ConnStringRoundTrip(password + "@" + middle, addr, db);
    }
  }

  // ---------------------------------------------------------------------------
  // Errors

  datatype Error =
    | Driver(cause: DriverError)
    | UnexpectedHealthcheckResult(got: int)
    | CreateDatabaseFailed(db: string, cause: DriverError)

  const UnexpectedPrefix := "unexpected healthcheck result: 1 != "

  const CreateFailedPrefix := "can't create database '"

  /**
   * The text of an error. That of an unexpected probe result reads back to the
   * scanned value; that of a failed create names the database between quotes.
   */
  function Message(e: Error): (msg: string)
    ensures e.UnexpectedHealthcheckResult? ==>
      && |msg| > |UnexpectedPrefix|
      && msg[..|UnexpectedPrefix|] == UnexpectedPrefix
      && ParseInt(msg[|UnexpectedPrefix|..]) == Some(e.got)
    ensures e.CreateDatabaseFailed? ==>
      && |msg| > |CreateFailedPrefix| + |e.db|
      && msg[..|CreateFailedPrefix|] == CreateFailedPrefix
      && msg[|CreateFailedPrefix|..|CreateFailedPrefix| + |e.db|] == e.db
      && msg[|CreateFailedPrefix| + |e.db|..] == "': " + Describe(e.cause)
  {
    match e
    case Driver(c) => Describe(c)
    case UnexpectedHealthcheckResult(v) =>
      IntToStringRoundTrip(v);
      UnexpectedPrefix + IntToString(v)
    case CreateDatabaseFailed(db, c) => CreateFailedPrefix + db + "': " + Describe(c)
  }

  /** The text of an unexpected probe result names the scanned value: distinct values give distinct texts. */
  lemma UnexpectedResultMessageNamesValue(v: int, w: int)
    ensures Message(UnexpectedHealthcheckResult(v)) == Message(UnexpectedHealthcheckResult(w)) ==> v == w
  {
  }

  /** What a run of the probe or of the initializer returns, and the server state it leaves. */
  datatype Run = Run(err: Option<Error>, post: State)

  // ---------------------------------------------------------------------------
  // Readiness probe

  /** The probe opens one session, to `master`; it logs no statement and changes nothing but the dial list. */
  function Probe(o: Oracle, s: State, p: MSSQL, addr: string): (r: Run)
    ensures r.post == s.(dials := s.dials + [ConnString(p.password, addr, MasterDB)])
  {
    var session := OpenStep(o, s, ConnString(p.password, addr, MasterDB));
    if session.conn.Failure? then Run(Some(Driver(session.conn.error)), session.post)
    else
      match ScanStep(o, session.post, session.conn.value, HealthQuery)
      case Failure(e) => Run(Some(Driver(e)), session.post)
      case Success(one) => Run(if one != 1 then Some(UnexpectedHealthcheckResult(one)) else None, session.post)
  }

  method Healthcheck(p: MSSQL, addr: string, srv: Server) returns (err: Option<Error>)
    modifies srv
    ensures err == Probe(srv.oracle, old(srv.Snapshot()), p, addr).err
    ensures srv.Snapshot() == Probe(srv.oracle, old(srv.Snapshot()), p, addr).post
  {
    var db := srv.Open(ConnString(p.password, addr, MasterDB));
    if db.Failure? {
      return Some(Driver(db.error));
    }
    var row := ScanStep(srv.oracle, srv.Snapshot(), db.value, HealthQuery);
    if row.Failure? {
      return Some(Driver(row.error));
    }
    var one := row.value;
    if one != 1 {
      return Some(UnexpectedHealthcheckResult(one));
    }
    return None;
  }

  /** The probe succeeds exactly when its session opens and `select 1` scans to 1. */
  lemma HealthcheckSucceedsIff(o: Oracle, s: State, p: MSSQL, addr: string)
    ensures Probe(o, s, p, addr).err.None? <==>
      && !o.dialFails(s, ConnString(p.password, addr, MasterDB))
      && o.scan(Probe(o, s, p, addr).post, ConnString(p.password, addr, MasterDB), HealthQuery) == Some(1)
  {
  }

  /** A scanned value other than 1 is reported as such, with the value in the text. */
  lemma HealthcheckRejectsOtherValues(o: Oracle, s: State, p: MSSQL, addr: string, v: int)
    requires !o.dialFails(s, ConnString(p.password, addr, MasterDB))
    requires o.scan(s.(dials := s.dials + [ConnString(p.password, addr, MasterDB)]),
                    ConnString(p.password, addr, MasterDB), HealthQuery) == Some(v)
    requires v != 1
    ensures Probe(o, s, p, addr).err == Some(UnexpectedHealthcheckResult(v))
    ensures Message(Probe(o, s, p, addr).err.value) == "unexpected healthcheck result: 1 != " + IntToString(v)
  {
  }

  /** A failure to open the session or to scan the result is returned as the driver reported it. */
  lemma ProbeErrors(o: Oracle, s: State, p: MSSQL, addr: string)
    ensures var m := ConnString(p.password, addr, MasterDB);
      o.dialFails(s, m) ==> Probe(o, s, p, addr).err == Some(Driver(DialFailed(m)))
    ensures var m := ConnString(p.password, addr, MasterDB);
      !o.dialFails(s, m) && o.scan(s.(dials := s.dials + [m]), m, HealthQuery).None? ==>
        Probe(o, s, p, addr).err == Some(Driver(ScanFailed(m, HealthQuery)))
  {
  }

  // ---------------------------------------------------------------------------
  // Initializer

  /** Statements `qs` as the server logs them when sent on a session opened with `dsn`. */
  function Sent(dsn: string, qs: seq<string>): seq<Stmt> {
    seq(|qs|, i requires 0 <= i < |qs| => Stmt(dsn, qs[i]))
  }

  /** Executes `qs` in order on `c`, stopping at the first failure. */
  function SeedRun(o: Oracle, s: State, c: Conn, qs: seq<string>): (r: Step)
    ensures r.post.dials == s.dials
    ensures s.log <= r.post.log && |r.post.log| <= |s.log| + |qs|
    ensures s.databases <= r.post.databases
    decreases |qs|
  {
    if qs == [] then Step(None, s)
    else
      var first := ExecStep(o, s, c, qs[0]);
      if first.err.Some? then first else SeedRun(o, first.post, c, qs[1..])
  }

  /**
   * Steps 1 to 3: connect to `master`, create the database, reconnect to it.
   * Only `master` and then the configured database are dialled, and the
   * create statement is the only one that may run; on success both sessions
   * were opened, the create ran and the database exists.
   */
  function Provision(o: Oracle, s: State, p: MSSQL, addr: string): (r: Run)
    ensures var m, d := ConnString(p.password, addr, MasterDB), ConnString(p.password, addr, p.db);
      r.post.dials == s.dials + [m] || r.post.dials == s.dials + [m, d]
    ensures r.post.log == s.log || r.post.log == s.log + [Stmt(ConnString(p.password, addr, MasterDB), CreateDatabase + p.db)]
    ensures r.err.None? ==>
      && r.post.dials == s.dials + [ConnString(p.password, addr, MasterDB), ConnString(p.password, addr, p.db)]
      && r.post.log == s.log + [Stmt(ConnString(p.password, addr, MasterDB), CreateDatabase + p.db)]
      && p.db in r.post.databases
  {
    CreatedNameOfCreate(p.db);
    var master := OpenStep(o, s, ConnString(p.password, addr, MasterDB));
    if master.conn.Failure? then Run(Some(Driver(master.conn.error)), master.post)
    else
      var create := ExecStep(o, master.post, master.conn.value, CreateDatabase + p.db);
      if create.err.Some? then Run(Some(CreateDatabaseFailed(p.db, create.err.value)), create.post)
      else
        var target := OpenStep(o, create.post, ConnString(p.password, addr, p.db));
        if target.conn.Failure? then Run(Some(Driver(target.conn.error)), target.post)
        else Run(None, target.post)
  }

  /** The whole init routine: provisioning, then the seed statements on the new database. */
  function InitRun(o: Oracle, s: State, p: MSSQL, queries: seq<string>, addr: string): (r: Run)
    ensures s.log <= r.post.log
    ensures r.err.None? ==> p.db in r.post.databases
  {
    var prov := Provision(o, s, p, addr);
    if prov.err.Some? then prov
    else
      var seed := SeedRun(o, prov.post, Conn(ConnString(p.password, addr, p.db)), queries);
      Run(if seed.err.Some? then Some(Driver(seed.err.value)) else None, seed.post)
  }

  method Init(p: MSSQL, queries: seq<string>, addr: string, srv: Server) returns (err: Option<Error>)
    modifies srv
    ensures err == InitRun(srv.oracle, old(srv.Snapshot()), p, queries, addr).err
    ensures srv.Snapshot() == InitRun(srv.oracle, old(srv.Snapshot()), p, queries, addr).post
  {
    var db := srv.Open(ConnString(p.password, addr, MasterDB));
    if db.Failure? {
      return Some(Driver(db.error));
    }

    var e := srv.Exec(db.value, "create database " + p.db);
    if e.Some? {
      return Some(CreateDatabaseFailed(p.db, e.value));
    }

    db := srv.Open(ConnString(p.password, addr, p.db));
    if db.Failure? {
      return Some(Driver(db.error));
    }

    ghost var seeded := srv.Snapshot();
    var i := 0;
    while i < |queries|
      invariant 0 <= i <= |queries|
      invariant SeedRun(srv.oracle, srv.Snapshot(), db.value, queries[i..]) ==
                SeedRun(srv.oracle, seeded, db.value, queries)
    {
      e := srv.Exec(db.value, queries[i]);
      if e.Some? {
        return Some(Driver(e.value));
      }
      i := i + 1;
    }
    return None;
  }

  /**
   * Seed statements run in order and stop at the first failure: if k of them
   * ran, the log grew by exactly the first k, in order, and either all ran or
   * statement k failed in the state they left and is the error returned.
   * Nothing is removed from the log and no database disappears.
   */
  lemma {:induction false} SeedRunRunsPrefix(o: Oracle, s: State, c: Conn, qs: seq<string>)
    decreases |qs|
    ensures |s.log| <= |SeedRun(o, s, c, qs).post.log| <= |s.log| + |qs|
    ensures var r := SeedRun(o, s, c, qs); var k := |r.post.log| - |s.log|;
      && r.post.log == s.log + Sent(c.dsn, qs[..k])
      && r.post.dials == s.dials
      && s.databases <= r.post.databases
      && (r.err.None? <==> k == |qs|)
      && (r.err.Some? ==> r.err == ExecError(o, r.post, c.dsn, qs[k]))
  {
    if qs != [] {
      var first := ExecStep(o, s, c, qs[0]);
      if first.err.None? {
        SeedRunRunsPrefix(o, first.post, c, qs[1..]);
        var r := SeedRun(o, first.post, c, qs[1..]);
        var k := |r.post.log| - |first.post.log|;
        assert qs[..k + 1] == [qs[0]] + qs[1..][..k];
        assert Sent(c.dsn, qs[..k + 1]) == [Stmt(c.dsn, qs[0])] + Sent(c.dsn, qs[1..][..k]);
        if r.err.Some? {
          assert qs[k + 1] == qs[1..][k];
        }
      } else {
        assert qs[..0] == [];
      }
    } else {
      assert qs[..0] == [];
    }
  }

  /**
   * The initializer opens a session to `master` first and then at most one to
   * the configured database, and every statement it executes was sent on one
   * of these two sessions; nothing logged earlier is taken back.
   */
  lemma InitAddressesOnlyMasterAndDb(o: Oracle, s: State, p: MSSQL, queries: seq<string>, addr: string)
    ensures var r := InitRun(o, s, p, queries, addr);
      || r.post.dials == s.dials + [ConnString(p.password, addr, MasterDB)]
      || r.post.dials == s.dials + [ConnString(p.password, addr, MasterDB), ConnString(p.password, addr, p.db)]
    ensures var r := InitRun(o, s, p, queries, addr);
      && s.log <= r.post.log
      && forall i :: |s.log| <= i < |r.post.log| ==>
           r.post.log[i].dsn in {ConnString(p.password, addr, MasterDB), ConnString(p.password, addr, p.db)}
  {
    var prov := Provision(o, s, p, addr);
    if prov.err.None? {
      SeedRunRunsPrefix(o, prov.post, Conn(ConnString(p.password, addr, p.db)), queries);
    }
  }

  /**
   * Creating the database fails exactly when the `master` session opens and
   * the create statement fails; the error then names the configured database,
   * there is no second session and no statement has been executed.
   */
  lemma InitCreateFailureStops(o: Oracle, s: State, p: MSSQL, queries: seq<string>, addr: string)
    ensures var m := ConnString(p.password, addr, MasterDB);
      var s1 := s.(dials := s.dials + [m]);
      var r := InitRun(o, s, p, queries, addr);
      (r.err.Some? && r.err.value.CreateDatabaseFailed?) <==>
        (!o.dialFails(s, m) && ExecError(o, s1, m, CreateDatabase + p.db).Some?)
    ensures var m := ConnString(p.password, addr, MasterDB);
      var s1 := s.(dials := s.dials + [m]);
      var r := InitRun(o, s, p, queries, addr);
      r.err.Some? && r.err.value.CreateDatabaseFailed? ==>
        && r.err.value == CreateDatabaseFailed(p.db, ExecError(o, s1, m, CreateDatabase + p.db).value)
        && r.post == s1
  {
  }

  /**
   * When the session to `master` cannot be opened, init returns that error as
   * the driver reported it; nothing else is dialled and nothing is executed.
   */
  lemma MasterFailureStops(o: Oracle, s: State, p: MSSQL, queries: seq<string>, addr: string)
    ensures var m := ConnString(p.password, addr, MasterDB);
      o.dialFails(s, m) ==>
        InitRun(o, s, p, queries, addr) == Run(Some(Driver(DialFailed(m))), s.(dials := s.dials + [m]))
  {
  }

  /**
   * When the database was created but the session to it cannot be opened,
   * init returns that error as the driver reported it; the create statement
   * stays applied and no seed statement runs.
   */
  lemma ReconnectFailureStops(o: Oracle, s: State, p: MSSQL, queries: seq<string>, addr: string)
    ensures var m, d := ConnString(p.password, addr, MasterDB), ConnString(p.password, addr, p.db);
      var s1 := s.(dials := s.dials + [m]);
      var s2 := State(s.databases + {p.db}, s1.dials, s.log + [Stmt(m, CreateDatabase + p.db)]);
      !o.dialFails(s, m) && ExecError(o, s1, m, CreateDatabase + p.db).None? && o.dialFails(s2, d) ==>
        InitRun(o, s, p, queries, addr) == Run(Some(Driver(DialFailed(d))), s2.(dials := s2.dials + [d]))
  {
  }

  /**
   * Once the database is created and the second session is open, the log
   * holds the create statement on `master` followed by the first k seed
   * statements on the new database, in input order; the init succeeds
   * exactly when all of them ran, and otherwise fails with the error of
   * statement k, which never took effect, and no later statement ran.
   */
  lemma InitSeedsInOrder(o: Oracle, s: State, p: MSSQL, queries: seq<string>, addr: string)
    requires Provision(o, s, p, addr).err.None?
    ensures |s.log| + 1 <= |InitRun(o, s, p, queries, addr).post.log| <= |s.log| + 1 + |queries|
    ensures var r := InitRun(o, s, p, queries, addr);
      var k := |r.post.log| - |s.log| - 1;
      var d := ConnString(p.password, addr, p.db);
      && r.post.log == s.log + [Stmt(ConnString(p.password, addr, MasterDB), CreateDatabase + p.db)] + Sent(d, queries[..k])
      && p.db in r.post.databases
      && (r.err.None? <==> k == |queries|)
      && (r.err.Some? ==> r.err.value.Driver? && ExecError(o, r.post, d, queries[k]) == Some(r.err.value.cause))
  {
    var prov := Provision(o, s, p, addr);
    CreatedNameOfCreate(p.db);
    SeedRunRunsPrefix(o, prov.post, Conn(ConnString(p.password, addr, p.db)), queries);
  }

  /**
   * With no seed statements the init routine is exactly the provisioning
   * steps: it succeeds when both sessions open and the create statement
   * succeeds, and the create statement is then the only one executed.
   */
  lemma InitEmptyQueries(o: Oracle, s: State, p: MSSQL, addr: string)
    ensures InitRun(o, s, p, [], addr) == Provision(o, s, p, addr)
    ensures var m := ConnString(p.password, addr, MasterDB);
      var s1 := s.(dials := s.dials + [m]);
      var s2 := State(s.databases + {p.db}, s1.dials, s.log + [Stmt(m, CreateDatabase + p.db)]);
      InitRun(o, s, p, [], addr).err.None? <==>
        && !o.dialFails(s, m)
        && ExecError(o, s1, m, CreateDatabase + p.db).None?
        && !o.dialFails(s2, ConnString(p.password, addr, p.db))
    ensures InitRun(o, s, p, [], addr).err.None? ==>
      InitRun(o, s, p, [], addr).post.log == s.log + [Stmt(ConnString(p.password, addr, MasterDB), CreateDatabase + p.db)]
  {
    CreatedNameOfCreate(p.db);
  }

  /**
   * After a successful init the configured database exists, so running the
   * init routine again on that server fails before any statement executes.
   */
  lemma InitNotRepeatable(o: Oracle, s: State, p: MSSQL, q1: seq<string>, q2: seq<string>, addr: string)
    requires InitRun(o, s, p, q1, addr).err.None?
    ensures p.db in InitRun(o, s, p, q1, addr).post.databases
    ensures var again := InitRun(o, InitRun(o, s, p, q1, addr).post, p, q2, addr);
      again.err.Some? && again.post.log == InitRun(o, s, p, q1, addr).post.log
  {
  }
}
