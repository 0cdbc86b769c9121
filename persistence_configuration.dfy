/**
 * PersistenceConfiguration.multiRoutingDataSource: registers the three tenant
 * data sources under their keys and makes the main data source the default.
 */
module PersistenceConfiguration {
  import opened Wrappers
  import opened DbTypes
  import opened DbContextHolder
  import Routing

  /** The three separately configured pools, one per configuration prefix. */
  function MainDataSource(): Routing.DataSource { Routing.DataSource("app.datasource.main") }
  function ClientADataSource(): Routing.DataSource { Routing.DataSource("app.datasource.clienta") }
  function ClientBDataSource(): Routing.DataSource { Routing.DataSource("app.datasource.clientb") }

  /** The pool configured for each key. */
  function Pool(k: DbType): Routing.DataSource {
    match k
    case MAIN => MainDataSource()
    case CLIENT_A => ClientADataSource()
    case CLIENT_B => ClientBDataSource()
  }

  /** The configuration the bean method establishes. */
  ghost predicate Configured(router: Routing.MultiRoutingDataSource)
    reads router
  {
    && router.targetDataSources.Keys == {MAIN, CLIENT_A, CLIENT_B}
    && router.targetDataSources[MAIN] == MainDataSource()
    && router.targetDataSources[CLIENT_A] == ClientADataSource()
    && router.targetDataSources[CLIENT_B] == ClientBDataSource()
    && router.defaultTargetDataSource == Some(MainDataSource())
  }

  /**
   * The bean method: fills the target map by successive puts, then sets the
   * default target and the target map on a new router. Spring returns the
   * singleton main data source on both calls of mainDataSource().
   */
  method MultiRoutingDataSource() returns (router: Routing.MultiRoutingDataSource)
    ensures fresh(router)
    ensures router.targetDataSources.Keys == {MAIN, CLIENT_A, CLIENT_B}
    ensures router.targetDataSources[MAIN] == MainDataSource()
    ensures router.targetDataSources[CLIENT_A] == ClientADataSource()
    ensures router.targetDataSources[CLIENT_B] == ClientBDataSource()
    ensures router.defaultTargetDataSource == Some(router.targetDataSources[MAIN])
    ensures Configured(router)
  {
    var targetDataSources: map<DbType, Routing.DataSource> := map[];
    targetDataSources := targetDataSources[MAIN := MainDataSource()];
    targetDataSources := targetDataSources[CLIENT_A := ClientADataSource()];
    targetDataSources := targetDataSources[CLIENT_B := ClientBDataSource()];
    router := new Routing.MultiRoutingDataSource();
    router.SetDefaultTargetDataSource(MainDataSource());
    router.SetTargetDataSources(targetDataSources);
  }

  /** The three keys are backed by three different pools. */
  lemma ConfiguredTargetsDistinct(router: Routing.MultiRoutingDataSource, j: DbType, k: DbType)
    requires Configured(router)
    ensures router.targetDataSources[j] == router.targetDataSources[k] <==> j == k
  {
  }

  /**
   * Whatever the calling thread's context holds, the lookup key is registered,
   * so the router never has to fall back; with no context the routed pool is
   * the default, which is the main pool, and with context k it is k's pool.
   * In every case the router resolves the lookup key to that key's own pool.
   */
  lemma EveryLookupKeyIsRegistered(router: Routing.MultiRoutingDataSource, slots: Slots, t: ThreadId)
    requires Configured(router)
    ensures Routing.LookupKey(Current(slots, t)) in router.targetDataSources
    ensures Current(slots, t) == None ==>
      router.Resolve(Routing.LookupKey(Current(slots, t))) == router.defaultTargetDataSource == Some(MainDataSource())
    ensures forall k :: Current(slots, t) == Some(k) ==>
      router.Resolve(Routing.LookupKey(Current(slots, t))) == Some(router.targetDataSources[k])
    ensures router.Resolve(Routing.LookupKey(Current(slots, t))) == Some(Pool(Routing.LookupKey(Current(slots, t))))
  {
    match Routing.LookupKey(Current(slots, t))
    case MAIN =>
    case CLIENT_A =>
    case CLIENT_B =>
  }
}
