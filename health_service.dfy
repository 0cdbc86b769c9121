/**
 * HealthService: probes connectivity, migration state and routing for every
 * tenant database and folds the results into one report. The JDBC and Flyway
 * probes are inputs; the folds, the routing probe and the report are modelled.
 */
module HealthService {
  import opened Wrappers
  import opened DbTypes
  import opened DbContextHolder
  import opened Posts
  import opened PersistenceConfiguration
  import Routing

  // ---------------------------------------------------------------- connectivity

  /**
   * What the connection check gives: the connection opened and isValid(5)
   * answered, and then the metadata calls and the close went through
   * (Opened), or one of them threw after the flags were written
   * (OpenedThenFailed); or opening the connection threw (ConnectFailed).
   */
  datatype ConnectionProbe =
    | Opened(valid: bool)
    | OpenedThenFailed(valid: bool, message: string)
    | ConnectFailed(message: string)

  datatype ConnectivityStatus = ConnectivityStatus(connected: bool, connectionValid: Option<bool>, error: Option<string>)

  /**
   * The decision part of checkDatabaseConnectivity: connected is the validity
   * result, overwritten with false by any error; the catch block keeps a
   * validity flag that was already written.
   */
  function CheckDatabaseConnectivity(probe: ConnectionProbe): (status: ConnectivityStatus)
    ensures status.connected <==> probe == Opened(true)
    ensures status.error.None? <==> probe.Opened?
    ensures !probe.ConnectFailed? ==> status.connectionValid == Some(probe.valid)
    ensures !probe.Opened? ==> status.error == Some(probe.message)
    ensures probe.ConnectFailed? ==> status.connectionValid == None
  {
    match probe
    case Opened(valid) => ConnectivityStatus(valid, Some(valid), None)
    case OpenedThenFailed(valid, m) => ConnectivityStatus(false, Some(valid), Some(m))
    case ConnectFailed(m) => ConnectivityStatus(false, None, Some(m))
  }

  datatype DatabaseHealth = DatabaseHealth(allDatabasesHealthy: bool, databases: map<string, ConnectivityStatus>)

  /**
   * getDatabaseHealth: probes every tenant in the map's iteration order; the
   * verdict is the conjunction of the per-tenant flags, every tenant gets an
   * entry under its name, and neither depends on the order.
   */
  method GetDatabaseHealth(order: seq<DbType>, probes: DbType -> ConnectionProbe) returns (health: DatabaseHealth)
    requires IsIterationOrder(order)
    ensures health.allDatabasesHealthy <==> forall k :: CheckDatabaseConnectivity(probes(k)).connected
    ensures health.databases.Keys == AllNames()
    ensures forall k :: health.databases[Name(k)] == CheckDatabaseConnectivity(probes(k))
  {
    var databases: map<string, ConnectivityStatus> := map[];
    var allHealthy := true;
    var i := 0;
    while i < |order|
      invariant 0 <= i <= |order|
      invariant databases.Keys == NamesOf(order[..i])
      invariant forall k :: k in order[..i] ==> databases[Name(k)] == CheckDatabaseConnectivity(probes(k))
      invariant allHealthy <==> forall k :: k in order[..i] ==> CheckDatabaseConnectivity(probes(k)).connected
    {
      var dbName := order[i];
      var status := CheckDatabaseConnectivity(probes(dbName));
      databases := databases[Name(dbName) := status];
      if !status.connected {
        allHealthy := false;
      }
      assert order[..i + 1] == order[..i] + [dbName];
      forall k | k in order[..i] ensures databases[Name(k)] == CheckDatabaseConnectivity(probes(k)) {
        NameInjective(k, dbName);
      }
      i := i + 1;
    }
    assert order[..i] == order;
    NamesOfIterationOrder(order);
    health := DatabaseHealth(allHealthy, databases);
  }

  // ---------------------------------------------------------------- migrations

  /**
   * What the migration status check gives: flyway.info() counted all and
   * pending migrations and the later calls (current version, pending list)
   * went through (Info), or one of those later calls threw after the counts
   * were written (InfoThenFailed); or counting itself threw (InfoFailed).
   */
  datatype MigrationInfoProbe =
    | Info(total: nat, pending: nat)
    | InfoThenFailed(total: nat, pending: nat, message: string)
    | InfoFailed(message: string)

  datatype MigrationStatus = MigrationStatus(
    upToDate: bool, totalMigrations: Option<nat>, pendingMigrations: Option<nat>, error: Option<string>)

  /**
   * The decision part of checkMigrationStatus: up to date iff nothing is
   * pending and no error followed, false on an error; the catch block keeps
   * counts that were already written.
   */
  function CheckMigrationStatus(probe: MigrationInfoProbe): (status: MigrationStatus)
    ensures status.upToDate <==> probe.Info? && probe.pending == 0
    ensures status.error.None? <==> probe.Info?
    ensures !probe.InfoFailed? ==>
      status.totalMigrations == Some(probe.total) && status.pendingMigrations == Some(probe.pending)
    ensures !probe.Info? ==> status.error == Some(probe.message)
    ensures probe.InfoFailed? ==> status.totalMigrations == None && status.pendingMigrations == None
  {
    match probe
    case Info(total, pending) => MigrationStatus(pending == 0, Some(total), Some(pending), None)
    case InfoThenFailed(total, pending, m) => MigrationStatus(false, Some(total), Some(pending), Some(m))
    case InfoFailed(m) => MigrationStatus(false, None, None, Some(m))
  }

  datatype MigrationHealth = MigrationHealth(allMigrationsUpToDate: bool, databases: map<string, MigrationStatus>)

  /** getMigrationHealth: the same fold as getDatabaseHealth over the migration status. */
  method GetMigrationHealth(order: seq<DbType>, probes: DbType -> MigrationInfoProbe) returns (health: MigrationHealth)
    requires IsIterationOrder(order)
    ensures health.allMigrationsUpToDate <==> forall k :: CheckMigrationStatus(probes(k)).upToDate
    ensures health.databases.Keys == AllNames()
    ensures forall k :: health.databases[Name(k)] == CheckMigrationStatus(probes(k))
  {
    var databases: map<string, MigrationStatus> := map[];
    var allUpToDate := true;
    var i := 0;
    while i < |order|
      invariant 0 <= i <= |order|
      invariant databases.Keys == NamesOf(order[..i])
      invariant forall k :: k in order[..i] ==> databases[Name(k)] == CheckMigrationStatus(probes(k))
      invariant allUpToDate <==> forall k :: k in order[..i] ==> CheckMigrationStatus(probes(k)).upToDate
    {
      var dbName := order[i];
      var status := CheckMigrationStatus(probes(dbName));
      databases := databases[Name(dbName) := status];
      if !status.upToDate {
        allUpToDate := false;
      }
      assert order[..i + 1] == order[..i] + [dbName];
      forall k | k in order[..i] ensures databases[Name(k)] == CheckMigrationStatus(probes(k)) {
        NameInjective(k, dbName);
      }
      i := i + 1;
    }
    assert order[..i] == order;
    NamesOfIterationOrder(order);
    health := MigrationHealth(allUpToDate, databases);
  }

  // ---------------------------------------------------------------- routing

  datatype RoutingTest = RoutingTest(
    success: bool, database: string, postCount: Option<nat>, message: Option<string>, error: Option<string>)

  /**
   * The record a routing test of key k produces: success exactly when k's own
   * pool answers, with that pool's post count and the success message and no
   * error; otherwise the pool's error and neither count nor message.
   */
  function RoutingTestOf(k: DbType, tables: map<Routing.DataSource, Table>, faults: Faults): (test: RoutingTest)
    requires Pool(k) in tables
    ensures test.success <==> faults(Pool(k)).None?
    ensures test.database == Name(k)
    ensures test.success ==>
      && test.postCount == Some(|tables[Pool(k)]|)
      && test.message == Some("Successfully routed to " + Name(k) + " database")
      && test.error == None
    ensures !test.success ==> test.error == faults(Pool(k)) && test.postCount == None && test.message == None
  {
    if faults(Pool(k)).None? then
      RoutingTest(true, Name(k), Some(|tables[Pool(k)]|), Some("Successfully routed to " + Name(k) + " database"), None)
    else
      RoutingTest(false, Name(k), None, None, faults(Pool(k)))
  }

  /**
   * testDatabaseRouting: sets the context to dbType, counts the posts through
   * the router, and clears the context in `finally`. The count runs on dbType's
   * pool, so the test succeeds exactly when that database answers.
   */
  method TestDatabaseRouting(holder: ContextHolder, router: Routing.MultiRoutingDataSource, repo: PostRepository,
                             t: ThreadId, dbType: DbType, faults: Faults)
    returns (test: RoutingTest)
    requires repo.Valid() && Configured(router)
    modifies holder
    ensures holder.slots == old(holder.slots) - {t}
    ensures holder.CurrentDb(t) == None
    ensures test == RoutingTestOf(dbType, repo.tables, faults)
  {
    holder.SetCurrentDb(t, dbType);
    var count := repo.Count(holder, router, t, faults);
    if count.Success? {
      test := RoutingTest(true, Name(dbType), Some(count.value),
                          Some("Successfully routed to " + Name(dbType) + " database"), None);
    } else {
      test := RoutingTest(false, Name(dbType), None, None, Some(count.error));
    }
    holder.Clear(t);
  }

  datatype RoutingHealth = RoutingHealth(routingHealthy: bool, routingTests: map<string, RoutingTest>)

  /**
   * getRoutingHealth: runs the routing probe for MAIN, CLIENT_A and CLIENT_B in
   * that order; routing is healthy iff every probe succeeds, and the calling
   * thread's context is left cleared.
   */
  method GetRoutingHealth(holder: ContextHolder, router: Routing.MultiRoutingDataSource, repo: PostRepository,
                          t: ThreadId, faults: Faults)
    returns (health: RoutingHealth)
    requires repo.Valid() && Configured(router)
    modifies holder
    ensures holder.slots == old(holder.slots) - {t}
    ensures health.routingHealthy <==> forall k: DbType :: faults(Pool(k)).None?
    ensures health.routingTests.Keys == AllNames()
    ensures forall k: DbType :: health.routingTests[Name(k)] == RoutingTestOf(k, repo.tables, faults)
  {
    ghost var tables := repo.tables;
    var dbTypes := AllTypes;
    var routingTests: map<string, RoutingTest> := map[];
    var routingWorking := true;
    var i := 0;
    while i < |dbTypes|
      invariant 0 <= i <= |dbTypes|
      invariant repo.tables == tables
      invariant holder.slots == old(holder.slots) - {t} || (i == 0 && holder.slots == old(holder.slots))
      invariant routingTests.Keys == NamesOf(dbTypes[..i])
      invariant forall k :: k in dbTypes[..i] ==> routingTests[Name(k)] == RoutingTestOf(k, tables, faults)
      invariant routingWorking <==> forall k :: k in dbTypes[..i] ==> faults(Pool(k)).None?
    {
      var dbType := dbTypes[i];
      var test := TestDatabaseRouting(holder, router, repo, t, dbType, faults);
      assert test.success <==> faults(Pool(dbType)).None?;
      routingTests := routingTests[Name(dbType) := test];
      if !test.success {
        routingWorking := false;
      }
      assert dbTypes[..i + 1] == dbTypes[..i] + [dbType];
      forall k | k in dbTypes[..i] ensures routingTests[Name(k)] == RoutingTestOf(k, tables, faults) {
        NameInjective(k, dbType);
      }
      i := i + 1;
    }
    assert dbTypes[..i] == dbTypes;
    AllTypesIsIterationOrder();
    NamesOfIterationOrder(dbTypes);
    health := RoutingHealth(routingWorking, routingTests);
  }

  // ---------------------------------------------------------------- overall report

  /** What a sub-check call does: returns its healthy flag, or throws. */
  datatype CheckOutcome = Returned(flag: bool) | Threw(message: string)

  /** The four flags of the report's "checks" entry. */
  datatype HealthChecks = HealthChecks(database: bool, migrations: bool, routing: bool, system: bool)

  /**
   * The overall report. `checks` and `error` are present on the normal and the
   * error path respectively; `issues` is present only when it is non-empty.
   */
  datatype OverallHealth = OverallHealth(
    healthy: bool, status: string, checks: Option<HealthChecks>, issues: Option<seq<string>>, error: Option<string>)

  const DatabaseIssue: string := "Database connectivity issues"
  const MigrationIssue: string := "Migration status issues"
  const RoutingIssue: string := "Database routing issues"
  const SystemIssue: string := "System resource issues"

  /** The fixed issue messages, in the order the checks are made. */
  const IssueMessages: seq<string> := [DatabaseIssue, MigrationIssue, RoutingIssue, SystemIssue]

  function Flags(c: HealthChecks): seq<bool> {
    [c.database, c.migrations, c.routing, c.system]
  }

  /** The messages whose flag is false, in their original order. */
  function FailingMessages(flags: seq<bool>, messages: seq<string>): seq<string>
    requires |flags| == |messages|
    decreases |flags|
  {
    if flags == [] then []
    else (if flags[0] then [] else [messages[0]]) + FailingMessages(flags[1..], messages[1..])
  }

  /** The issues list of a report whose four checks returned these flags. */
  function Issues(c: HealthChecks): seq<string> {
    FailingMessages(Flags(c), IssueMessages)
  }

  /** The issue list is empty exactly when every flag is true. */
  lemma {:induction false} FailingMessagesEmptyIff(flags: seq<bool>, messages: seq<string>)
    requires |flags| == |messages|
    ensures FailingMessages(flags, messages) == [] <==> forall i :: 0 <= i < |flags| ==> flags[i]
    decreases |flags|
  {
    if flags != [] {
      FailingMessagesEmptyIff(flags[1..], messages[1..]);
      if forall i :: 0 <= i < |flags[1..]| ==> flags[1..][i] {
        if flags[0] {
          forall i | 0 <= i < |flags| ensures flags[i] {
            if i > 0 { assert flags[i] == flags[1..][i - 1]; }
          }
        }
      } else {
        var i :| 0 <= i < |flags[1..]| && !flags[1..][i];
        assert !flags[i + 1];
      }
    }
  }

  /** With distinct messages, a message is listed exactly when its flag is false. */
  lemma {:induction false} FailingMessagesListsFailures(flags: seq<bool>, messages: seq<string>, i: nat)
    requires |flags| == |messages| && i < |flags|
    requires forall a, b :: 0 <= a < b < |messages| ==> messages[a] != messages[b]
    ensures messages[i] in FailingMessages(flags, messages) <==> !flags[i]
    decreases |flags|
  {
    var rest := FailingMessages(flags[1..], messages[1..]);
    if i == 0 {
      FailingMessagesOnlyFrom(flags[1..], messages[1..], messages[0]);
      assert messages[0] !in rest;
    } else {
      FailingMessagesListsFailures(flags[1..], messages[1..], i - 1);
      assert messages[1..][i - 1] == messages[i];
    }
  }

  /** Only given messages are ever listed. */
  lemma {:induction false} FailingMessagesOnlyFrom(flags: seq<bool>, messages: seq<string>, m: string)
    requires |flags| == |messages|
    ensures m in FailingMessages(flags, messages) ==> exists j :: 0 <= j < |messages| && messages[j] == m
    decreases |flags|
  {
    if flags != [] && m in FailingMessages(flags, messages) && m != messages[0] {
      FailingMessagesOnlyFrom(flags[1..], messages[1..], m);
      var j :| 0 <= j < |messages[1..]| && messages[1..][j] == m;
      assert messages[j + 1] == m;
    }
  }

  /** The report's issues: empty exactly when healthy, and naming each failing check. */
  lemma IssuesNameFailingChecks(c: HealthChecks)
    ensures Issues(c) == [] <==> c.database && c.migrations && c.routing && c.system
    ensures DatabaseIssue in Issues(c) <==> !c.database
    ensures MigrationIssue in Issues(c) <==> !c.migrations
    ensures RoutingIssue in Issues(c) <==> !c.routing
    ensures SystemIssue in Issues(c) <==> !c.system
  {
    var f := Flags(c);
    FailingMessagesEmptyIff(f, IssueMessages);
    assert (forall i :: 0 <= i < |f| ==> f[i]) <==> c.database && c.migrations && c.routing && c.system by {
      if c.database && c.migrations && c.routing && c.system {
        forall i | 0 <= i < |f| ensures f[i] {}
      }
      if forall i :: 0 <= i < |f| ==> f[i] {
        assert f[0] && f[1] && f[2] && f[3];
      }
    }
    FailingMessagesListsFailures(f, IssueMessages, 0);
    FailingMessagesListsFailures(f, IssueMessages, 1);
    FailingMessagesListsFailures(f, IssueMessages, 2);
    FailingMessagesListsFailures(f, IssueMessages, 3);
  }

  /** Issues written out check by check. */
  lemma IssuesUnfolded(c: HealthChecks)
    ensures Issues(c) == (if c.database then [] else [DatabaseIssue]) + (if c.migrations then [] else [MigrationIssue])
                         + (if c.routing then [] else [RoutingIssue]) + (if c.system then [] else [SystemIssue])
  {
    var f, m := Flags(c), IssueMessages;
    var tail3 := FailingMessages(f[3..], m[3..]);
    assert f[3..] == [c.system] && m[3..] == [SystemIssue];
    assert f[3..][1..] == [] && m[3..][1..] == [];
    assert FailingMessages(f[3..][1..], m[3..][1..]) == [];
    assert tail3 == if c.system then [] else [SystemIssue];
    assert f[2..][1..] == f[3..] && m[2..][1..] == m[3..];
    var tail2 := FailingMessages(f[2..], m[2..]);
    assert f[2..][0] == c.routing && m[2..][0] == RoutingIssue;
    assert tail2 == (if c.routing then [] else [RoutingIssue]) + tail3;
    assert f[1..][1..] == f[2..] && m[1..][1..] == m[2..];
    var tail1 := FailingMessages(f[1..], m[1..]);
    assert f[1..][0] == c.migrations && m[1..][0] == MigrationIssue;
    assert tail1 == (if c.migrations then [] else [MigrationIssue]) + tail2;
    assert Issues(c) == (if c.database then [] else [DatabaseIssue]) + tail1;
  }

  /** The message of the first sub-check, in call order, that threw. */
  function FirstThrown(database: CheckOutcome, migrations: CheckOutcome, routing: CheckOutcome, system: CheckOutcome)
    : (m: Option<string>)
    ensures m.None? <==> database.Returned? && migrations.Returned? && routing.Returned? && system.Returned?
    ensures database.Threw? ==> m == Some(database.message)
  {
    if database.Threw? then Some(database.message)
    else if migrations.Threw? then Some(migrations.message)
    else if routing.Threw? then Some(routing.message)
    else if system.Threw? then Some(system.message)
    else None
  }

  /**
   * The body of getOverallHealth once the four sub-checks have been called:
   * the first one that throws sends control to the catch block (DOWN, with
   * its message); otherwise each failing check appends its issue, and the
   * report is healthy iff no issue was appended.
   */
  method OverallHealthOf(database: CheckOutcome, migrations: CheckOutcome, routing: CheckOutcome, system: CheckOutcome)
    returns (report: OverallHealth)
    ensures report.healthy <==>
      database == Returned(true) && migrations == Returned(true) && routing == Returned(true) && system == Returned(true)
    ensures report.status == if report.healthy then "UP" else "DOWN"
    ensures FirstThrown(database, migrations, routing, system).Some? ==>
      && report.error == FirstThrown(database, migrations, routing, system)
      && report.checks == None && report.issues == None
    ensures FirstThrown(database, migrations, routing, system).None? ==>
      var c := HealthChecks(database.flag, migrations.flag, routing.flag, system.flag);
      && report.error == None
      && report.checks == Some(c)
      && report.issues == if Issues(c) == [] then None else Some(Issues(c))
  {
    var thrown := FirstThrown(database, migrations, routing, system);
    if thrown.Some? {
      return OverallHealth(false, "DOWN", None, None, thrown);
    }
    var c := HealthChecks(database.flag, migrations.flag, routing.flag, system.flag);
    var issues: seq<string> := [];
    if !c.database { issues := issues + [DatabaseIssue]; }
    if !c.migrations { issues := issues + [MigrationIssue]; }
    if !c.routing { issues := issues + [RoutingIssue]; }
    if !c.system { issues := issues + [SystemIssue]; }
    var overallHealthy := issues == [];
    IssuesUnfolded(c);
    assert issues == Issues(c);
    IssuesNameFailingChecks(c);
    report := OverallHealth(overallHealthy, if overallHealthy then "UP" else "DOWN", Some(c),
                            if issues != [] then Some(issues) else None, None);
  }

  ghost predicate AllConnected(connections: DbType -> ConnectionProbe) {
    forall k :: CheckDatabaseConnectivity(connections(k)).connected
  }

  ghost predicate AllUpToDate(migrations: DbType -> MigrationInfoProbe) {
    forall k :: CheckMigrationStatus(migrations(k)).upToDate
  }

  ghost predicate AllReachable(faults: Faults) {
    forall k: DbType :: faults(Pool(k)).None?
  }

  /**
   * getOverallHealth: runs the database, migration and routing checks (the
   * system check is an input) and builds the report from their flags. The
   * modelled sub-checks never throw, so the normal path is always taken.
   */
  method GetOverallHealth(holder: ContextHolder, router: Routing.MultiRoutingDataSource, repo: PostRepository,
                          t: ThreadId,
                          databaseOrder: seq<DbType>, connections: DbType -> ConnectionProbe,
                          migrationOrder: seq<DbType>, migrations: DbType -> MigrationInfoProbe,
                          faults: Faults, systemHealthy: bool)
    returns (report: OverallHealth)
    requires IsIterationOrder(databaseOrder) && IsIterationOrder(migrationOrder)
    requires repo.Valid() && Configured(router)
    modifies holder
    ensures holder.slots == old(holder.slots) - {t}
    ensures var c := HealthChecks(AllConnected(connections), AllUpToDate(migrations), AllReachable(faults), systemHealthy);
      && report.healthy == (c.database && c.migrations && c.routing && c.system)
      && report.status == (if report.healthy then "UP" else "DOWN")
      && report.checks == Some(c)
      && report.issues == (if Issues(c) == [] then None else Some(Issues(c)))
      && report.error == None
  {
    var dbHealth := GetDatabaseHealth(databaseOrder, connections);
    var migrationHealth := GetMigrationHealth(migrationOrder, migrations);
    var routingHealth := GetRoutingHealth(holder, router, repo, t, faults);
    report := OverallHealthOf(Returned(dbHealth.allDatabasesHealthy), Returned(migrationHealth.allMigrationsUpToDate),
                              Returned(routingHealth.routingHealthy), Returned(systemHealthy));
  }
}
