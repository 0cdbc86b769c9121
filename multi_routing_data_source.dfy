/**
 * MultiRoutingDataSource: turns the calling thread's routing context into a
 * lookup key, and (as the routing data source it extends) a lookup key into
 * one of its configured target data sources.
 */
module Routing {
  import opened Wrappers
  import opened DbTypes
  import opened DbContextHolder

  /** A configured connection pool, identified by its configuration prefix. */
  datatype DataSource = DataSource(configPrefix: string)

  /** The lookup key for a context value: null falls back to MAIN. */
  function LookupKey(current: Option<DbType>): DbType {
    if current.None? then MAIN else current.value
  }

  /**
   * determineCurrentLookupKey. The Java method is an instance method that only
   * reads the static context holder, so here it takes the holder and the
   * calling thread. It has no modifies clause: it never changes the context.
   */
  method DetermineCurrentLookupKey(holder: ContextHolder, t: ThreadId) returns (key: DbType)
    ensures holder.CurrentDb(t) == None ==> key == MAIN
    ensures forall k :: holder.CurrentDb(t) == Some(k) ==> key == k
    ensures key == LookupKey(holder.CurrentDb(t))
  {
    var current := holder.GetCurrentDb(t);
    if current == None {
      return MAIN;
    }
    return current.value;
  }

  /**
   * The routing data source: a map of target data sources and a default
   * target, both set through setters after construction.
   */
  class MultiRoutingDataSource {
    var targetDataSources: map<DbType, DataSource>
    var defaultTargetDataSource: Option<DataSource>

    constructor ()
      ensures targetDataSources == map[] && defaultTargetDataSource == None
    {
      targetDataSources := map[];
      defaultTargetDataSource := None;
    }

    method SetDefaultTargetDataSource(ds: DataSource)
      modifies this
      ensures defaultTargetDataSource == Some(ds)
      ensures targetDataSources == old(targetDataSources)
    {
      defaultTargetDataSource := Some(ds);
    }

    method SetTargetDataSources(targets: map<DbType, DataSource>)
      modifies this
      ensures targetDataSources == targets
      ensures defaultTargetDataSource == old(defaultTargetDataSource)
    {
      targetDataSources := targets;
    }

    /**
     * The data source a lookup key resolves to: its registered target, else
     * the default target; None when neither exists (the router then fails).
     */
    function Resolve(key: DbType): (ds: Option<DataSource>)
      reads this
      ensures key in targetDataSources ==> ds == Some(targetDataSources[key])
      ensures key !in targetDataSources ==> ds == defaultTargetDataSource
    {
      if key in targetDataSources then Some(targetDataSources[key]) else defaultTargetDataSource
    }

    /** The data source a connection request on thread t is routed to. */
    method DetermineTargetDataSource(holder: ContextHolder, t: ThreadId) returns (ds: Option<DataSource>)
      ensures ds == Resolve(LookupKey(holder.CurrentDb(t)))
    {
      var key := DetermineCurrentLookupKey(holder, t);
      ds := if key in targetDataSources then Some(targetDataSources[key]) else defaultTargetDataSource;
    }
  }
}
