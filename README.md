# Multi-tenant data source routing, modelled in Dafny

This project models the tenant-routing core of a Spring service. The service
sends each data-access call to one of three tenant databases: `MAIN`,
`CLIENT_A` or `CLIENT_B`. The model covers:

- the per-thread routing context (`DBContextHolder`);
- the lookup key it yields, with its fallback to `MAIN` (`MultiRoutingDataSource`);
- the static registry of target data sources (`PersistenceConfiguration.multiRoutingDataSource`);
- the controller's client selector and its set/clear bracket (`PostController`);
- tenant onboarding (`TenantService`);
- Flyway migration orchestration (`FlywayConfig`);
- health aggregation (`HealthService`).

One module per source file:

| file | module | models |
|---|---|---|
| `db_types.dfy` | `DbTypes` | `DBTypeEnum` (its file is not part of this model; the three constants are those used throughout the source) |
| `db_context_holder.dfy` | `DbContextHolder` | the `ThreadLocal` slot as a map from thread id to key; a class with `SetCurrentDb`, `GetCurrentDb`, `Clear`; traces of set/clear operations |
| `multi_routing_data_source.dfy` | `Routing` | `determineCurrentLookupKey`, and the router's target map and default target with lookup-with-default |
| `persistence_configuration.dfy` | `PersistenceConfiguration` | the bean method that builds the target map and sets the default |
| `posts.dfy` | `Posts` | `Post` and a routed stand-in for `PostRepository` (`findAll`, `count`, `save`); the repository interface is not part of this model |
| `post_controller.dfy` | `PostController` | `getTest` and `initialData` |
| `flyway_config.dfy` | `FlywayConfig` | `migrateDatabases` and `migrateTenantDatabase` |
| `tenant_service.dfy` | `TenantService` | `onboardNewTenant`, `String.trim`-based blank check, `validateTenantDatabase` |
| `health_service.dfy` | `HealthService` | the connectivity, migration and routing checks, and the overall report |
| `wrappers.dfy`, `exceptions.dfy` | `Wrappers`, `Exceptions` | `Option`/`Result`, and Java exceptions as values |

Conventions:

- Java `null` is `None`.
- A thrown exception is a returned `Exception` value.
- The static context holder is an explicit `ContextHolder` object. Callers pass it in together with the calling thread's id.
- Each foreign call is an input to the model:
  - Flyway's `migrate()` is a `MigrateOutcome` (`Succeeded(n)`, `NotSuccess` or `Throws(msg)`).
  - The migration status calls are a `MigrationInfoProbe`. It can say the counts were read and a later call threw (`InfoThenFailed`).
  - The connection check is a `ConnectionProbe`. It can say `isValid(5)` answered and a later metadata call or the close threw (`OpenedThenFailed`).
  - Whether a pool answers repository calls is `faults: DataSource -> Option<string>`.
- Every repository call asks the router for a pool: the router takes the calling thread's lookup key (`DetermineCurrentLookupKey`) and resolves it with `Resolve`. The repository requires the router to be configured as `multiRoutingDataSource` builds it (`Configured`). `EveryLookupKeyIsRegistered` proves that such a router sends each key to the key's own pool. So both steps, context to key and key to pool, are part of what the controller and health contracts prove.
- A hash map's iteration order is a parameter. It is required to be some permutation of the three keys (`IsIterationOrder`).

The model follows the code as written:

- `migrateDatabases` stops at the first tenant whose migration throws. It does not isolate per-tenant failures.
- A non-success result from that loop is only logged.
- Onboarding only validates the tenant id and the JDBC URL, then migrates once. It registers no pool, checks no uniqueness, and adds nothing to the routing map.
- There is no per-tenant migration record and no per-tenant lock.

## Model

| member | source | states |
|---|---|---|
| DbContextHolder.Step | src/main/java/com/izicap/dynamicmultidatabase/DBContextHolder.java:11-25 | after `set(t,k)` thread t reads `k` (overwriting any earlier key), after `clear(t)` it reads null; no other thread's binding changes |
| DbContextHolder.ClearIdempotent | src/main/java/com/izicap/dynamicmultidatabase/DBContextHolder.java:22-25 | clearing twice equals clearing once and leaves the slot empty |
| DbContextHolder.RunIsolation | src/main/java/com/izicap/dynamicmultidatabase/DBContextHolder.java:9 | any sequence of set/clear operations by other threads leaves thread u's binding unchanged |
| DbContextHolder.ClearedStaysCleared | src/main/java/com/izicap/dynamicmultidatabase/DBContextHolder.java:22-25 | after thread t clears its slot, t reads null whatever came before and whatever other threads do after |
| DbContextHolder.RunAppend | src/main/java/com/izicap/dynamicmultidatabase/DBContextHolder.java:9-25 | running two operation sequences in turn equals running their concatenation |
| DbContextHolder.ContextHolder.constructor | src/main/java/com/izicap/dynamicmultidatabase/DBContextHolder.java:9 | a fresh ThreadLocal: every thread reads null |
| DbContextHolder.ContextHolder.SetCurrentDb | src/main/java/com/izicap/dynamicmultidatabase/DBContextHolder.java:11-14 | new slots are the old slots with t bound to k; t reads k; other threads unchanged |
| DbContextHolder.ContextHolder.GetCurrentDb | src/main/java/com/izicap/dynamicmultidatabase/DBContextHolder.java:16-20 | returns t's key, or None exactly when t has no binding; changes nothing (no modifies clause) |
| DbContextHolder.ContextHolder.Clear | src/main/java/com/izicap/dynamicmultidatabase/DBContextHolder.java:22-26 | removes t's binding (allowed when unset); t reads null; other threads unchanged |
| Routing.DetermineCurrentLookupKey | src/main/java/com/izicap/dynamicmultidatabase/MultiRoutingDataSource.java:12-23 | with no context the key is MAIN; with context k the key is exactly k; the context is only read |
| Routing.MultiRoutingDataSource.constructor | src/main/java/com/izicap/dynamicmultidatabase/PersistenceConfiguration.java:67 | a new router has no targets and no default |
| Routing.MultiRoutingDataSource.SetDefaultTargetDataSource | src/main/java/com/izicap/dynamicmultidatabase/PersistenceConfiguration.java:68 | sets the default target, targets unchanged |
| Routing.MultiRoutingDataSource.SetTargetDataSources | src/main/java/com/izicap/dynamicmultidatabase/PersistenceConfiguration.java:69 | sets the target map, default unchanged |
| Routing.MultiRoutingDataSource.Resolve | src/main/java/com/izicap/dynamicmultidatabase/MultiRoutingDataSource.java:7 | a registered key resolves to its target, any other key to the default target |
| Routing.MultiRoutingDataSource.DetermineTargetDataSource | src/main/java/com/izicap/dynamicmultidatabase/MultiRoutingDataSource.java:7-23 | the pool a connection request on thread t uses is the resolution of t's lookup key |
| PersistenceConfiguration.MultiRoutingDataSource | src/main/java/com/izicap/dynamicmultidatabase/PersistenceConfiguration.java:58-73 | the target map has exactly the keys MAIN, CLIENT_A, CLIENT_B, each with its own configured pool, and the default is the pool registered under MAIN |
| PersistenceConfiguration.ConfiguredTargetsDistinct | src/main/java/com/izicap/dynamicmultidatabase/PersistenceConfiguration.java:37-65 | the three keys map to three different pools |
| PersistenceConfiguration.EveryLookupKeyIsRegistered | src/main/java/com/izicap/dynamicmultidatabase/PersistenceConfiguration.java:62-68 | every key the lookup can return is registered; no context routes to the default, which is the main pool; context k routes to k's pool; in every case the resolved pool is the lookup key's own configured pool |
| Posts.PostRepository.Route | src/main/java/com/izicap/dynamicmultidatabase/MultiRoutingDataSource.java:7-23 | with a configured router, the pool a repository call on thread t reaches is the pool of t's lookup key, and that pool has a table |
| Posts.PostRepository.FindAll | src/main/java/com/izicap/dynamicmultidatabase/PostController.java:65 | returns the posts of the pool the router picks for the thread's lookup key, or that pool's error |
| Posts.PostRepository.Count | src/main/java/com/izicap/dynamicmultidatabase/service/HealthService.java:378 | returns the number of posts of the routed pool, or its error |
| Posts.PostRepository.Save | src/main/java/com/izicap/dynamicmultidatabase/PostController.java:97 | inserts or replaces the post by id in the routed pool's table only; on error nothing changes |
| PostController.ClientDbType | src/main/java/com/izicap/dynamicmultidatabase/PostController.java:48-59 | "client-a" iff CLIENT_A, "client-b" iff CLIENT_B, every other string (including "main" and other spellings) iff MAIN |
| PostController.GetTest | src/main/java/com/izicap/dynamicmultidatabase/PostController.java:36-77 | answers 200 with the posts of the selected tenant's pool, or 500 without body when that pool fails; the thread's context is cleared on both paths, other threads untouched |
| PostController.SaveUntilFaultStopsAtFirstFault | src/main/java/com/izicap/dynamicmultidatabase/PostController.java:93-122 | when save i is the first to fail, saves before i stay applied, later saves are never made, and save i's message is the error |
| PostController.SeedPostsLandInOwnDatabase | src/main/java/com/izicap/dynamicmultidatabase/PostController.java:94-110 | when all saves succeed each tenant's pool holds its own sample post under id 1, and every other row of every table is untouched |
| PostController.SaveInto | src/main/java/com/izicap/dynamicmultidatabase/PostController.java:96-97 | selecting k right before the save makes the save land in the table of k's pool |
| PostController.InitialData | src/main/java/com/izicap/dynamicmultidatabase/PostController.java:90-123 | saves into MAIN, CLIENT_A, CLIENT_B in turn up to the first failure; 200 with the success text or 500 with "Error initializing data: " and the message; the context is cleared on both paths |
| FlywayConfig.MigrateTenantDatabase | src/main/java/com/izicap/dynamicmultidatabase/config/FlywayConfig.java:107-133 | returns normally iff the migration succeeds; otherwise a RuntimeException naming the tenant, wrapping the thrown error or (for a non-success result) the inner RuntimeException |
| FlywayConfig.MigrateDatabases | src/main/java/com/izicap/dynamicmultidatabase/config/FlywayConfig.java:49-102 | attempts tenants in iteration order, each at most once; fails iff some tenant throws, then stops at the first throwing one with an exception naming it; non-success is skipped; earlier successes stay recorded |
| TenantService.TrimEmptyIffAllTrimmed | src/main/java/com/izicap/dynamicmultidatabase/service/TenantService.java:25 | `trim().isEmpty()` holds exactly for strings made only of characters up to U+0020 |
| TenantService.OnboardNewTenant | src/main/java/com/izicap/dynamicmultidatabase/service/TenantService.java:20-44 | the tenant id is checked before the JDBC URL, username and password are not checked; the migration runs exactly once and only when both pass; success iff both pass and the migration succeeds; every failure escapes as a RuntimeException naming the tenant, wrapping the cause |
| TenantService.ValidateTenantDatabase | src/main/java/com/izicap/dynamicmultidatabase/service/TenantService.java:49-60 | always true |
| HealthService.CheckDatabaseConnectivity | src/main/java/com/izicap/dynamicmultidatabase/service/HealthService.java:282-314 | connected iff the connection opened, was valid and nothing threw after; error present iff something threw; a validity flag written before a late throw is kept, and absent only when opening failed |
| HealthService.GetDatabaseHealth | src/main/java/com/izicap/dynamicmultidatabase/service/HealthService.java:127-158 | allDatabasesHealthy is the conjunction over all three tenants; every tenant has its entry; independent of iteration order |
| HealthService.CheckMigrationStatus | src/main/java/com/izicap/dynamicmultidatabase/service/HealthService.java:319-365 | upToDate iff nothing is pending and nothing threw; error present iff something threw; counts written before a late throw are kept, and absent only when counting failed |
| HealthService.GetMigrationHealth | src/main/java/com/izicap/dynamicmultidatabase/service/HealthService.java:163-194 | allMigrationsUpToDate is the conjunction over all three tenants; every tenant has its entry; independent of iteration order |
| HealthService.RoutingTestOf | src/main/java/com/izicap/dynamicmultidatabase/service/HealthService.java:370-397 | success iff the key's own pool answers; then that pool's post count and the success message and no error, otherwise the pool's error and neither count nor message |
| HealthService.TestDatabaseRouting | src/main/java/com/izicap/dynamicmultidatabase/service/HealthService.java:370-397 | the record is exactly `RoutingTestOf` the key, routed through the configured router; the context is absent afterwards whatever it held before |
| HealthService.GetRoutingHealth | src/main/java/com/izicap/dynamicmultidatabase/service/HealthService.java:199-223 | routingHealthy iff the pools of MAIN, CLIENT_A and CLIENT_B all answer; one entry per key, each the full `RoutingTestOf` record with its count, message or error; context cleared |
| HealthService.FailingMessagesEmptyIff | src/main/java/com/izicap/dynamicmultidatabase/service/HealthService.java:85-90 | the issue list is empty iff every flag is true |
| HealthService.FailingMessagesListsFailures | src/main/java/com/izicap/dynamicmultidatabase/service/HealthService.java:85-88 | with distinct messages, a check's message is listed iff its flag is false |
| HealthService.IssuesUnfolded | src/main/java/com/izicap/dynamicmultidatabase/service/HealthService.java:85-88 | the issues are the failing checks' messages in the order database, migrations, routing, system |
| HealthService.IssuesNameFailingChecks | src/main/java/com/izicap/dynamicmultidatabase/service/HealthService.java:85-90 | no issues iff all four checks pass, and each fixed message appears iff its check failed |
| HealthService.OverallHealthOf | src/main/java/com/izicap/dynamicmultidatabase/service/HealthService.java:61-122 | healthy iff all four checks return true; UP iff healthy; a throwing check gives DOWN with its error and no checks; otherwise the checks entry holds the four flags and the issues entry is present only when non-empty |
| HealthService.GetOverallHealth | src/main/java/com/izicap/dynamicmultidatabase/service/HealthService.java:61-122 | healthy iff every tenant is connected, every tenant is up to date, every routing probe succeeds and the system flag holds; the issues name the failing ones; the context is cleared |

## Left out

- Flyway internals: locations, baseline, validation, `clean` flags, `info().all/current`, and the list of applied migrations. Each tenant's migrate outcome and pending count are inputs.
- JDBC connection handling and connection metadata: the database product and version, the URL echoed in a status entry, `currentVersion`, and the pending-migration list in a status entry. Connectivity is an input probe.
- A null exception message: `e.getMessage()` may be null in Java, and the model's messages are always strings.
- `HealthService.getSystemHealth`: it uses floating-point memory percentages and `Runtime`/`ThreadGroup` introspection. `systemHealthy` is an input.
- Timestamps, logging, and the `details` entry of the overall report. The `details` entry only repeats the sub-reports.
- Real `ThreadLocal` concurrency. Per-thread isolation is a map keyed by an abstract thread id.
- Spring's routing data source beyond lookup-with-default: its `IllegalStateException` is `None` from `Resolve`. Also left out are the JPA/Hibernate beans (`multiEntityManager`, `multiTransactionManager`, `dbSessionFactory`, `hibernateProperties`) and the Hikari pools. A pool is a value naming its configuration prefix.
- `PostRepository` is not part of this model. It is a routed map from id to post per tenant, so `findAll` returns a set and the ORM's row order is not modelled.
- `HealthController`, `TenantController`, `SwaggerConfig`, `DynamicMultiDatabaseApplication`, `HealthStatus` and the getters and setters of `Post`. These are transport, documentation, start-up and plain data holders.
- The `(Boolean)` casts. The sub-reports always carry their flag, so the casts cannot fail.
- A null `client` in `getTest`. The request parameter has a default, so the `switch` never sees null.
- PostController.GetTest: exceptions raised before the repository call are not modelled. Setting the context cannot throw.
- HealthService.GetOverallHealth: the modelled sub-checks never throw, so its contract covers only the normal path. The catch path is stated by `OverallHealthOf` for sub-check outcomes given as inputs.
