/**
 * FlywayConfig: migrates the three statically configured tenant databases at
 * start-up, and one given tenant database on demand. Flyway itself is a
 * foreign call: what migrate() does for a tenant is an input.
 */
module FlywayConfig {
  import opened Wrappers
  import opened DbTypes
  import opened Exceptions

  /** What flyway.migrate() does for one database. */
  datatype MigrateOutcome =
    | Succeeded(migrationsExecuted: nat)  // returns with success == true
    | NotSuccess                          // returns with success == false
    | Throws(message: string)             // throws

  const TenantFailurePrefix: string := "Failed to migrate tenant database: "
  const DatabaseFailurePrefix: string := "Failed to migrate database: "

  /**
   * migrateTenantDatabase: None when it returns normally, else the exception
   * it throws. A non-success result is thrown inside the try block and so is
   * caught and wrapped once more by the catch block.
   */
  function MigrateTenantDatabase(tenantName: string, outcome: MigrateOutcome): (thrown: Option<Exception>)
    ensures thrown.None? <==> outcome.Succeeded?
    ensures thrown.Some? ==>
      thrown.value.RuntimeException? && thrown.value.message == TenantFailurePrefix + tenantName
    ensures outcome.NotSuccess? ==>
      thrown.value.cause == Some(RuntimeException(TenantFailurePrefix + tenantName, None))
    ensures outcome.Throws? ==> thrown.value.cause == Some(ForeignException(outcome.message))
  {
    var inner: Option<Exception> :=
      match outcome
      case Succeeded(_) => None
      case NotSuccess => Some(RuntimeException(TenantFailurePrefix + tenantName, None))
      case Throws(m) => Some(ForeignException(m));
    if inner.None? then None else Some(RuntimeException(TenantFailurePrefix + tenantName, inner))
  }

  /**
   * migrateDatabases: visits the tenants in the hash map's iteration order.
   * A non-success result is only logged and the loop goes on; a thrown error
   * ends the loop at once with an exception naming that tenant, and tenants
   * already migrated stay migrated. Returns the tenants attempted, the number
   * of migrations executed for each successful one, and the exception thrown.
   */
  method MigrateDatabases(order: seq<DbType>, outcome: DbType -> MigrateOutcome)
    returns (attempted: seq<DbType>, executed: map<DbType, nat>, error: Option<Exception>)
    requires IsIterationOrder(order)
    // tenants are attempted in order, each at most once, stopping at the first throw
    ensures |attempted| <= |order| && attempted == order[..|attempted|]
    ensures forall i, j :: 0 <= i < j < |attempted| ==> attempted[i] != attempted[j]
    // the run fails exactly when some tenant's migration throws, whatever the order
    ensures error.None? <==> forall k :: !outcome(k).Throws?
    ensures error.None? ==> attempted == order
    ensures error.Some? ==>
      && |attempted| > 0
      && outcome(attempted[|attempted| - 1]).Throws?
      && (forall j :: 0 <= j < |attempted| - 1 ==> !outcome(attempted[j]).Throws?)
      && error.value == RuntimeException(DatabaseFailurePrefix + Name(attempted[|attempted| - 1]),
                                         Some(ForeignException(outcome(attempted[|attempted| - 1]).message)))
    // every successful migration among the attempted ones is recorded, none is undone
    ensures forall k :: k in executed <==> k in attempted && outcome(k).Succeeded?
    ensures forall k :: k in executed ==> executed[k] == outcome(k).migrationsExecuted
  {
    attempted, executed, error := [], map[], None;
    var i := 0;
    while i < |order|
      invariant 0 <= i <= |order|
      invariant attempted == order[..i]
      invariant forall j :: 0 <= j < i ==> !outcome(order[j]).Throws?
      invariant forall k :: k in executed <==> k in attempted && outcome(k).Succeeded?
      invariant forall k :: k in executed ==> executed[k] == outcome(k).migrationsExecuted
    {
      var dbName := order[i];
      attempted := attempted + [dbName];
      assert attempted == order[..i + 1];
      match outcome(dbName) {
        case Throws(m) =>
          error := Some(RuntimeException(DatabaseFailurePrefix + Name(dbName), Some(ForeignException(m))));
          return;
        case Succeeded(n) =>
          executed := executed[dbName := n];
        case NotSuccess =>
      }
      i := i + 1;
    }
    assert order[..i] == order;
  }
}
