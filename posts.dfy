/**
 * The post table of every tenant database, reached through the routing data
 * source: each repository call asks the router for the pool of the calling
 * thread's lookup key and acts on that pool's table. Whether a database call
 * throws is an input (`faults`): faults(ds) == Some(m) means that a call
 * routed to pool ds fails with message m.
 */
module Posts {
  import opened Wrappers
  import opened DbTypes
  import opened DbContextHolder
  import opened Routing
  import PersistenceConfiguration

  datatype Post = Post(id: int, name: string)

  /** Which pools are unreachable, and with what error message. */
  type Faults = DataSource -> Option<string>

  /** A post table, keyed by the entity id. */
  type Table = map<int, Post>

  /** The tables after saving `post` through pool ds: the row with its id is inserted or replaced. */
  function Upsert(tables: map<DataSource, Table>, ds: DataSource, post: Post): (r: map<DataSource, Table>)
    requires ds in tables
    ensures r.Keys == tables.Keys
  {
    tables[ds := tables[ds][post.id := post]]
  }

  /** The pool a repository call on thread t reaches through a configured router. */
  function RoutedPool(holder: ContextHolder, t: ThreadId): DataSource
    reads holder
  {
    PersistenceConfiguration.Pool(LookupKey(holder.CurrentDb(t)))
  }

  class PostRepository {
    /** The post table behind each pool. */
    var tables: map<DataSource, Table>

    ghost predicate Valid()
      reads this
    {
      forall k: DbType :: PersistenceConfiguration.Pool(k) in tables
    }

    constructor ()
      ensures Valid()
      ensures forall k: DbType :: tables[PersistenceConfiguration.Pool(k)] == map[]
    {
      tables := map[PersistenceConfiguration.MainDataSource() := map[],
                    PersistenceConfiguration.ClientADataSource() := map[],
                    PersistenceConfiguration.ClientBDataSource() := map[]];
      new;
      forall k: DbType ensures PersistenceConfiguration.Pool(k) in tables
                            && tables[PersistenceConfiguration.Pool(k)] == map[] {
        match k
        case MAIN =>
        case CLIENT_A =>
        case CLIENT_B =>
      }
    }

    /** The pool the router picks for thread t; configured, it is the lookup key's own pool. */
    method Route(holder: ContextHolder, router: MultiRoutingDataSource, t: ThreadId) returns (ds: DataSource)
      requires Valid() && PersistenceConfiguration.Configured(router)
      ensures ds == RoutedPool(holder, t) && ds in tables
    {
      var target := router.DetermineTargetDataSource(holder, t);
      PersistenceConfiguration.EveryLookupKeyIsRegistered(router, holder.slots, t);
      ds := target.value;
    }

    /** findAll: every post of the routed database, or that database's error. */
    method FindAll(holder: ContextHolder, router: MultiRoutingDataSource, t: ThreadId, faults: Faults)
      returns (r: Result<set<Post>, string>)
      requires Valid() && PersistenceConfiguration.Configured(router)
      ensures var ds := RoutedPool(holder, t);
        r == if faults(ds).Some? then Failure(faults(ds).value) else Success(tables[ds].Values)
    {
      var ds := Route(holder, router, t);
      if faults(ds).Some? {
        return Failure(faults(ds).value);
      }
      return Success(tables[ds].Values);
    }

    /** count: the number of posts in the routed database, or its error. */
    method Count(holder: ContextHolder, router: MultiRoutingDataSource, t: ThreadId, faults: Faults)
      returns (r: Result<nat, string>)
      requires Valid() && PersistenceConfiguration.Configured(router)
      ensures var ds := RoutedPool(holder, t);
        r == if faults(ds).Some? then Failure(faults(ds).value) else Success(|tables[ds]|)
    {
      var ds := Route(holder, router, t);
      if faults(ds).Some? {
        return Failure(faults(ds).value);
      }
      return Success(|tables[ds]|);
    }

    /** save: inserts or replaces the post with the same id in the routed database. */
    method Save(holder: ContextHolder, router: MultiRoutingDataSource, t: ThreadId, post: Post, faults: Faults)
      returns (r: Result<Post, string>)
      requires Valid() && PersistenceConfiguration.Configured(router)
      modifies this
      ensures Valid()
      ensures var ds := RoutedPool(holder, t);
        if faults(ds).Some? then r == Failure(faults(ds).value) && tables == old(tables)
        else r == Success(post) && tables == Upsert(old(tables), ds, post)
    {
      var ds := Route(holder, router, t);
      if faults(ds).Some? {
        return Failure(faults(ds).value);
      }
      tables := tables[ds := tables[ds][post.id := post]];
      return Success(post);
    }
  }
}
