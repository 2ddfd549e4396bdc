/**
 * The analytical endpoints end to end: render the template, acquire the
 * worker's client, run the query on the warehouse and normalise the outcome.
 *
 * The warehouse is a parameter: a function from the client and the rendered
 * query to what the run produced (the rows, or the text of whatever error was
 * raised while submitting the job or reading its results).
 */
module Gateway {
  import opened QueryTemplates
  import opened ResultNormalizer
  import opened ClientPool

  type Warehouse = (ClientHandle, QuerySpec) -> Outcome

  /** The outcome `process_query` sees, given the cache as it was before the call. */
  ghost function RunOutcome(cache: map<WorkerId, ClientHandle>, created: nat, w: WorkerId,
                            creation: ClientCreation, spec: QuerySpec, warehouse: Warehouse): Outcome
  {
    if w in cache then warehouse(cache[w], spec)
    else if creation.CreationError? then Failure(creation.msg)
    else warehouse(ClientHandle(created), spec)
  }

  /**
   * The cache and creation counter after `get_client` ran for worker `w`: a
   * worker without a client gets the next serial number when creation
   * succeeds; otherwise nothing changes.
   */
  ghost function NextCache(cache: map<WorkerId, ClientHandle>, created: nat, w: WorkerId,
                           creation: ClientCreation): (map<WorkerId, ClientHandle>, nat)
  {
    if w in cache || creation.CreationError? then (cache, created)
    else (cache[w := ClientHandle(created)], created + 1)
  }

  /**
   * `process_query`: every error on the way (client creation, query
   * submission, result fetch) becomes a 500 carrying its text; otherwise the
   * rows are normalised. The cache changes only by `Acquire`'s rule.
   */
  method ProcessQuery(pool: WorkerClients, w: WorkerId, creation: ClientCreation,
                      spec: QuerySpec, warehouse: Warehouse) returns (resp: Response)
    requires pool.Valid()
    modifies pool
    ensures pool.Valid()
    ensures resp == Normalize(RunOutcome(old(pool.clients), old(pool.created), w, creation, spec, warehouse))
    ensures (pool.clients, pool.created) == NextCache(old(pool.clients), old(pool.created), w, creation)
    ensures w !in old(pool.clients) && creation.CreationError? ==> resp == Response(ErrorBody(creation.msg), 500)
  {
    var acquired := pool.Acquire(w, creation);
    var outcome: Outcome;
    match acquired {
      case AcquireFailed(msg) =>
        outcome := Failure(msg);
      case Acquired(client) =>
        outcome := warehouse(client, spec);
    }
    resp := Normalize(outcome);
  }

  /** The `get` of each of the six endpoint views: render its template and process it. */
  method Get(pool: WorkerClients, w: WorkerId, creation: ClientCreation, cfg: Config,
             req: Request, warehouse: Warehouse) returns (resp: Response)
    requires pool.Valid()
    modifies pool
    ensures pool.Valid()
    ensures resp == Normalize(RunOutcome(old(pool.clients), old(pool.created), w, creation,
                                         Render(cfg, req), warehouse))
    ensures (pool.clients, pool.created) == NextCache(old(pool.clients), old(pool.created), w, creation)
  {
    resp := ProcessQuery(pool, w, creation, Render(cfg, req), warehouse);
  }

  /**
   * Two requests served in turn by the same worker: once the first has a
   * client (cached before, or created now), the second runs on that same
   * client, whatever its own client creation would have done.
   */
  method ConsecutiveRequests(pool: WorkerClients, w: WorkerId, first: ClientCreation, second: ClientCreation,
                             cfg: Config, req1: Request, req2: Request, warehouse: Warehouse)
    returns (resp1: Response, resp2: Response)
    requires pool.Valid()
    modifies pool
    ensures pool.Valid()
    ensures w in old(pool.clients) || first.Created? ==>
      var client := if w in old(pool.clients) then old(pool.clients)[w] else ClientHandle(old(pool.created));
      && resp1 == Normalize(warehouse(client, Render(cfg, req1)))
      && resp2 == Normalize(warehouse(client, Render(cfg, req2)))
      && pool.clients == old(pool.clients)[w := client]
  {
    resp1 := Get(pool, w, first, cfg, req1, warehouse);
    resp2 := Get(pool, w, second, cfg, req2, warehouse);
  }
}
