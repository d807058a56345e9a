# Gnomock MSSQL preset — a Dafny model

This project models the Microsoft SQL Server preset of Gnomock (`mssql.go`):
the value that tells the container runtime which image to run, which
environment to set, how to probe the server for readiness and how to
initialize it. It proves what the preset's four deterministic pieces do:

- **Options**: the option list always starts with the same four entries
  (health check, `SA_PASSWORD=<password>`, init routine, a 30-second wait
  timeout) and gets `ACCEPT_EULA=Y` as a fifth and last entry exactly when the
  license flag is set.
- **Connection strings**: `sqlserver://sa:<password>@<addr>?database=<db>`,
  built by plain concatenation with no escaping.
- **Readiness probe**: connects to `master`, scans `select 1` and succeeds only
  when the value is 1; any other value gives
  `unexpected healthcheck result: 1 != <value>`.
- **Initializer**: connects to `master`, runs `create database <db>` (a failure
  is wrapped with the database name), reconnects to `<db>` and runs the seed
  statements in order, stopping at the first failure without rolling back.

`database/sql` and the SQL Server driver are replaced by an abstract server
(module `Engine`, file `engine.dfy`). It holds the set of existing databases,
the connection string of every session it was asked to open, and the log of the
statements it executed. A failure oracle decides whether a session fails to
open, whether a statement fails and what a scalar query scans to; it may look
at the whole server state. SQL is not interpreted, except that
`create database <name>` creates `<name>` and fails when `<name>` already
exists. Executing a statement that fails leaves the server unchanged. The
server is a class (`Engine.Server`) whose methods change it in place. The
preset's probe and init routine are methods on it (`Mssql.Healthcheck`,
`Mssql.Init`). Each is proved equal to a pure function of the old server state
(`Mssql.Probe`, `Mssql.InitRun`), and the lemmas are stated about those functions.

Files: `wrappers.dfy` (Option, Result), `decimal.dfy` (how Go's `%d` prints an
integer, and how to read it back), `engine.dfy` (the abstract server),
`mssql.dfy` (the preset).

Three consequences of the code are worth stating:

- A probe query whose value is NULL cannot be scanned into an `int`. It
  therefore fails with the driver's scan error, not with the
  "unexpected healthcheck result" error (it is still a failure).
- An empty seed list makes init succeed only when both connections open as
  well as the create statement succeeds, not merely when the database is created.
- A failing seed statement's error is returned unwrapped. It names the
  statement only because the abstract server's error carries it.

## Model

| member | source | states |
|---|---|---|
| `Mssql.Options` | mssql.go:53-66 | the list has 5 entries when licensed and 4 otherwise; the first four are health check, `SA_PASSWORD=`+password, init with the preset's queries, and a 30-second wait; `ACCEPT_EULA=Y` is in the list iff the license flag is set and is then the last entry; the environment entries are exactly the password entry followed by the EULA entry when licensed |
| `Mssql.ConnStringRoundTrip` | mssql.go:122-129 | the connection string `Mssql.ConnString` builds reads back to user `sa` and the password, address and database it was built from, provided the password has no `?` and the address has neither `@` nor `?` |
| `Mssql.ConnStringUnescaped` | mssql.go:123-126 | nothing is escaped: two different password/address pairs give the same connection string, so an `@` in the address reads as part of the password: the string built with address `middle@addr` parses back with password `password@middle` and address `addr` |
| `Mssql.Message` | mssql.go:85-87 | the unexpected-result text starts with `unexpected healthcheck result: 1 != ` and its remainder reads back to the scanned value; the create-failure text of mssql.go:103 is `can't create database '`, the database name, `': ` and the text of the driver error |
| `Mssql.Probe` | mssql.go:68-90 | the probe specification: it opens exactly one session, to `master`, logs no statement and changes nothing but the dial list |
| `Mssql.Healthcheck` | mssql.go:68-90 | the probe method returns the error of, and leaves the server in the state of, `Mssql.Probe` run on the server's state before the call |
| `Mssql.HealthcheckSucceedsIff` | mssql.go:68-90 | the probe succeeds iff its session to `master` opens and `select 1` scans to 1 |
| `Mssql.ProbeErrors` | mssql.go:71-83 | a failure to open the session to `master`, or to scan the result, is returned as the driver reported it |
| `Mssql.HealthcheckRejectsOtherValues` | mssql.go:85-87 | when the session opens and the scan yields v ≠ 1, the error is the unexpected-result error carrying v, with text `unexpected healthcheck result: 1 != ` followed by v in decimal |
| `Mssql.UnexpectedResultMessageNamesValue` | mssql.go:86 | the unexpected-result text determines the scanned value: distinct values give distinct texts |
| `Decimal.IntToStringRoundTrip` | mssql.go:86 | the decimal rendering of the scanned value, as the `%d` verb prints it, reads back to that value |
| `Mssql.Init` | mssql.go:92-120 | the init method returns the error of, and leaves the server in the state of, `Mssql.InitRun` run on the server's state before the call; its loop keeps the seed run of the remaining statements equal to that of the whole list |
| `Mssql.SeedRun` | mssql.go:111-116 | running the seed statements dials nothing, only appends to the log (at most one entry per statement) and never removes a database from the abstract server |
| `Mssql.Provision` | mssql.go:96-109 | connect, create and reconnect dial `master` and then at most the configured database, and run at most the create statement; on success both sessions were opened, the create ran and the database exists |
| `Mssql.InitRun` | mssql.go:92-120 | the init specification: nothing logged earlier is taken back, and on success the configured database exists on the abstract server |
| `Mssql.SeedRunRunsPrefix` | mssql.go:111-116 | seed statements run in input order and stop at the first failure: the log grows by exactly the first k statements; all ran iff there is no error; otherwise statement k failed in the state left behind and its error is the one returned; nothing is removed and no database disappears |
| `Mssql.InitAddressesOnlyMasterAndDb` | mssql.go:96-106 | init opens a session to `master` first and then at most one to the configured database; every statement it executes was sent on one of these two sessions, and earlier log entries stay |
| `Mssql.InitCreateFailureStops` | mssql.go:101-104 | creation fails iff the `master` session opens and the create statement fails; the error then names the configured database and wraps the cause, no second session is opened and no statement has been executed |
| `Mssql.MasterFailureStops` | mssql.go:96-99 | when the session to `master` cannot be opened, init returns that dial error unwrapped, dials nothing else and executes nothing |
| `Mssql.ReconnectFailureStops` | mssql.go:106-109 | when the create succeeded but the session to the new database cannot be opened, init returns that dial error unwrapped; the log holds the create statement and no seed statement |
| `Mssql.InitSeedsInOrder` | mssql.go:106-118 | once the database exists and the second session is open, the log holds the create statement on `master` followed by the first k seed statements on the new database; init succeeds iff all ran; otherwise the error is that of statement k, and no later statement ran |
| `Mssql.InitEmptyQueries` | mssql.go:111-118 | with no seed statements, init is exactly connect, create and reconnect; it succeeds iff both sessions open and the create succeeds, and the create is then the only statement executed |
| `Mssql.InitNotRepeatable` | mssql.go:101-118 | after a successful init the configured database exists, and a second init on that server fails before executing any statement |

## Left out

- `Preset` and `buildConfig` (mssql.go:21-32): the option functions that fill the configuration are not part of this model. The preset is taken as a given `MSSQL` value with its four fields.
- `Ports` (mssql.go:48-50): the default port constant is not part of this model. `Image` is kept only as a constant.
- `Container.Address`: the probe and the init routine take the server address as a parameter.
- The runtime's option constructors (`WithHealthCheck`, `WithEnv`, `WithInit`, `WithWaitTimeout`) are tagged values. The health check and init entries name the preset and seed list they run with instead of holding a closure. The wait timeout is given in seconds.
- `sql.Open`, the driver, the network and SQL semantics are replaced by the abstract server and its failure oracle. The driver's error texts are replaced by the server's own wording.
- Closing (or leaking) sessions is not modelled. The `%w` wrapping is modelled as the `cause` field of the create error, and unwrapping is left out.
- The runtime's retry loop around the probe and its enforcement of the 30-second timeout are time- and concurrency-driven and live outside this file.
- The scanned value is an unbounded integer. The 64-bit width of Go's `int` is a matter for the driver's scan.
- Statements other than `create database <name>` never change the abstract server's set of databases: a seed that drops or renames a database is not modelled. The facts that seed statements never remove a database (`Mssql.SeedRun`, `Mssql.SeedRunRunsPrefix`), that the configured database exists after a successful init (`Mssql.InitRun`, `Mssql.InitSeedsInOrder`) and that a second init fails (`Mssql.InitNotRepeatable`) hold of the abstract server only.
- `ParseConnString` reads the connection string the way a URL is split: the authority ends at the first `?`, and the user information ends at the last `@`. Go's URL parser also treats `/`, `#` and `%` specially, and that is not modelled.
