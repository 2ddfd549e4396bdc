/**
 * The per-worker warehouse client cache.
 *
 * Each worker (a thread in the original) gets its own client, created the
 * first time it asks and returned unchanged on every later call. The
 * thread-local slot is modelled as an explicit map from worker identity to
 * client; clients are told apart by a creation serial number.
 */
module ClientPool {

  type WorkerId = nat

  /** An authenticated warehouse client; `serial` identifies the object. */
  datatype ClientHandle = ClientHandle(serial: nat)

  /** Whether reading the service-account file and constructing a client succeeds on this call. */
  datatype ClientCreation = Created | CreationError(msg: string)

  datatype Acquired = Acquired(client: ClientHandle) | AcquireFailed(msg: string)

  class WorkerClients {
    var clients: map<WorkerId, ClientHandle>
    var created: nat

    /** Every cached client was created by this cache, and no two workers share one. */
    ghost predicate Valid()
      reads this
    {
      && (forall w :: w in clients ==> clients[w].serial < created)
      && (forall w1, w2 :: w1 in clients && w2 in clients && w1 != w2 ==> clients[w1] != clients[w2])
    }

    constructor ()
      ensures Valid()
      ensures clients == map[] && created == 0
    {
      clients := map[];
      created := 0;
    }

    /**
     * `get_client`: return the worker's cached client, or create, cache and
     * return a new one when the worker has none. A creation error propagates
     * and leaves the cache as it was.
     */
    method Acquire(w: WorkerId, creation: ClientCreation) returns (r: Acquired)
      requires Valid()
      modifies this
      ensures Valid()
      ensures w in old(clients) ==>
        r == Acquired(old(clients)[w]) && clients == old(clients) && created == old(created)
      ensures w !in old(clients) && creation.CreationError? ==>
        r == AcquireFailed(creation.msg) && clients == old(clients) && created == old(created)
      ensures w !in old(clients) && creation.Created? ==>
        && r == Acquired(ClientHandle(old(created)))
        && r.client !in old(clients).Values
        && clients == old(clients)[w := r.client]
        && created == old(created) + 1
      ensures r.Acquired? ==> w in clients && clients[w] == r.client
      ensures r.Acquired? ==> forall w' :: w' in clients && w' != w ==> clients[w'] != r.client
    {
      if w !in clients {
        match creation
        case CreationError(msg) =>
          return AcquireFailed(msg);
        case Created =>
          var c := ClientHandle(created);
          clients := clients[w := c];
          created := created + 1;
      }
      r := Acquired(clients[w]);
    }
  }
}
