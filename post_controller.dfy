/**
 * PostController: maps the `client` request parameter to a tenant key and
 * brackets every repository call with setting the context and clearing it in
 * `finally`, on the success path and the error path alike.
 */
module PostController {
  import opened Wrappers
  import opened DbTypes
  import opened DbContextHolder
  import opened Posts
  import opened PersistenceConfiguration
  import Routing

  /** An HTTP response: the status code and the optional body. */
  datatype Response<T> = Response(status: nat, body: Option<T>)

  /**
   * The `switch (client)` of getTest: exact string comparison, so only
   * "client-a" and "client-b" select a client database; "main", other
   * spellings and unknown values all select MAIN.
   */
  function ClientDbType(client: string): (k: DbType)
    ensures k == CLIENT_A <==> client == "client-a"
    ensures k == CLIENT_B <==> client == "client-b"
    ensures k == MAIN <==> client != "client-a" && client != "client-b"
  {
    if client == "client-a" then CLIENT_A
    else if client == "client-b" then CLIENT_B
    else MAIN
  }

  /**
   * getTest: reads every post of the selected tenant database; a failing
   * repository call gives a 500 without body. The context of the calling
   * thread is cleared afterwards on both paths.
   */
  method GetTest(holder: ContextHolder, router: Routing.MultiRoutingDataSource, repo: PostRepository,
                 t: ThreadId, client: string, faults: Faults)
    returns (resp: Response<set<Post>>)
    requires repo.Valid() && Configured(router)
    modifies holder
    ensures holder.slots == old(holder.slots) - {t}
    ensures holder.CurrentDb(t) == None
    ensures var ds := Pool(ClientDbType(client));
      resp == if faults(ds).Some? then Response(500, None) else Response(200, Some(repo.tables[ds].Values))
  {
    var dbType := ClientDbType(client);
    holder.SetCurrentDb(t, dbType);
    var posts := repo.FindAll(holder, router, t, faults);
    if posts.Failure? {
      resp := Response(500, None);
    } else {
      resp := Response(200, Some(posts.value));
    }
    holder.Clear(t);
  }

  /** The posts initialData writes, each with the database it is written to, in order. */
  const SeedPosts: seq<(DbType, Post)> :=
    [(MAIN, Post(1, "Main DB")), (CLIENT_A, Post(1, "Client A DB")), (CLIENT_B, Post(1, "Client B DB"))]

  const InitSuccessBody: string := "Success! Sample data created in all databases."
  const InitErrorPrefix: string := "Error initializing data: "

  /** The tables after every save in `seeds` has succeeded, each made through its key's pool. */
  function SaveAll(tables: map<Routing.DataSource, Table>, seeds: seq<(DbType, Post)>): (r: map<Routing.DataSource, Table>)
    requires forall k: DbType :: Pool(k) in tables
    ensures forall k: DbType :: Pool(k) in r
    decreases |seeds|
  {
    if seeds == [] then tables
    else SaveAll(Upsert(tables, Pool(seeds[0].0), seeds[0].1), seeds[1..])
  }

  /**
   * Saving `seeds` one by one, each into its own database, until a save
   * fails: the final tables and the failing call's message, if any.
   */
  function SaveUntilFault(tables: map<Routing.DataSource, Table>, seeds: seq<(DbType, Post)>, faults: Faults)
    : (r: (map<Routing.DataSource, Table>, Option<string>))
    requires forall k: DbType :: Pool(k) in tables
    ensures forall k: DbType :: Pool(k) in r.0
    decreases |seeds|
  {
    if seeds == [] then (tables, None)
    else if faults(Pool(seeds[0].0)).Some? then (tables, faults(Pool(seeds[0].0)))
    else SaveUntilFault(Upsert(tables, Pool(seeds[0].0), seeds[0].1), seeds[1..], faults)
  }

  /**
   * When the save at position i is the first to fail, the saves before it
   * stay applied, the ones after it are never made, and its message is the
   * error; when none fails, every save is applied.
   */
  lemma {:induction false} SaveUntilFaultStopsAtFirstFault(
    tables: map<Routing.DataSource, Table>, seeds: seq<(DbType, Post)>, faults: Faults, i: nat)
    requires forall k: DbType :: Pool(k) in tables
    requires i <= |seeds|
    requires forall j :: 0 <= j < i ==> faults(Pool(seeds[j].0)).None?
    requires i < |seeds| ==> faults(Pool(seeds[i].0)).Some?
    ensures SaveUntilFault(tables, seeds, faults)
      == (SaveAll(tables, seeds[..i]), if i < |seeds| then faults(Pool(seeds[i].0)) else None)
    decreases |seeds|
  {
    if seeds == [] {
    } else if i == 0 {
      assert seeds[..0] == [];
    } else {
      var next := Upsert(tables, Pool(seeds[0].0), seeds[0].1);
      SaveUntilFaultStopsAtFirstFault(next, seeds[1..], faults, i - 1);
      assert seeds[1..][..i - 1] == seeds[..i][1..];
    }
  }

  /**
   * When every save succeeds, each tenant database holds exactly its own
   * sample post under id 1, and every other row is untouched.
   */
  lemma SeedPostsLandInOwnDatabase(tables: map<Routing.DataSource, Table>)
    requires forall k: DbType :: Pool(k) in tables
    ensures var r := SaveAll(tables, SeedPosts);
      && r[Pool(MAIN)][1] == Post(1, "Main DB")
      && r[Pool(CLIENT_A)][1] == Post(1, "Client A DB")
      && r[Pool(CLIENT_B)][1] == Post(1, "Client B DB")
    ensures var r := SaveAll(tables, SeedPosts);
      forall ds, id :: ds in tables && id in tables[ds] && id != 1 ==> ds in r && id in r[ds] && r[ds][id] == tables[ds][id]
  {
    var t1 := Upsert(tables, Pool(MAIN), Post(1, "Main DB"));
    var t2 := Upsert(t1, Pool(CLIENT_A), Post(1, "Client A DB"));
    var t3 := Upsert(t2, Pool(CLIENT_B), Post(1, "Client B DB"));
    assert SeedPosts[1..][1..][1..] == [];
    assert SaveAll(tables, SeedPosts) == t3;
  }

  /** SaveUntilFault over the three sample posts, written out case by case. */
  lemma SaveUntilFaultOnSeedPosts(tables: map<Routing.DataSource, Table>, faults: Faults)
    requires forall k: DbType :: Pool(k) in tables
    ensures SaveUntilFault(tables, SeedPosts, faults) ==
      if faults(Pool(MAIN)).Some? then (tables, faults(Pool(MAIN)))
      else var t1 := Upsert(tables, Pool(MAIN), Post(1, "Main DB"));
      if faults(Pool(CLIENT_A)).Some? then (t1, faults(Pool(CLIENT_A)))
      else var t2 := Upsert(t1, Pool(CLIENT_A), Post(1, "Client A DB"));
      if faults(Pool(CLIENT_B)).Some? then (t2, faults(Pool(CLIENT_B)))
      else (Upsert(t2, Pool(CLIENT_B), Post(1, "Client B DB")), None)
  {
    assert SeedPosts[1..][1..][1..] == [];
  }

  /** One block of initialData: select database k for thread t, then save `post` there. */
  method SaveInto(holder: ContextHolder, router: Routing.MultiRoutingDataSource, repo: PostRepository,
                  t: ThreadId, k: DbType, post: Post, faults: Faults)
    returns (saved: Result<Post, string>)
    requires repo.Valid() && Configured(router)
    modifies holder, repo
    ensures repo.Valid()
    ensures holder.slots == old(holder.slots)[t := k]
    ensures faults(Pool(k)).Some? ==> saved == Failure(faults(Pool(k)).value) && repo.tables == old(repo.tables)
    ensures faults(Pool(k)).None? ==> saved == Success(post) && repo.tables == Upsert(old(repo.tables), Pool(k), post)
  {
    holder.SetCurrentDb(t, k);
    saved := repo.Save(holder, router, t, post, faults);
  }

  /**
   * initialData: sets MAIN, CLIENT_A and CLIENT_B in turn, each right before
   * its save; the first failing save ends the sequence (earlier saves are
   * kept) and gives a 500 whose body carries the error message. The context
   * of the calling thread is cleared afterwards on both paths.
   */
  method InitialData(holder: ContextHolder, router: Routing.MultiRoutingDataSource, repo: PostRepository,
                     t: ThreadId, faults: Faults)
    returns (resp: Response<string>)
    requires repo.Valid() && Configured(router)
    modifies holder, repo
    ensures repo.Valid()
    ensures holder.slots == old(holder.slots) - {t}
    ensures holder.CurrentDb(t) == None
    ensures var (tables, error) := SaveUntilFault(old(repo.tables), SeedPosts, faults);
      && repo.tables == tables
      && resp == if error.None? then Response(200, Some(InitSuccessBody))
                 else Response(500, Some(InitErrorPrefix + error.value))
  {
    SaveUntilFaultOnSeedPosts(repo.tables, faults);
    var saved := SaveInto(holder, router, repo, t, MAIN, Post(1, "Main DB"), faults);
    if saved.Success? {
      saved := SaveInto(holder, router, repo, t, CLIENT_A, Post(1, "Client A DB"), faults);
      if saved.Success? {
        saved := SaveInto(holder, router, repo, t, CLIENT_B, Post(1, "Client B DB"), faults);
      }
    }
    if saved.Success? {
      resp := Response(200, Some(InitSuccessBody));
    } else {
      resp := Response(500, Some(InitErrorPrefix + saved.error));
    }
    holder.Clear(t);
  }
}
