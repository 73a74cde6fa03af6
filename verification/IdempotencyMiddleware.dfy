/**
 The middleware of src/middlewares/idempotency.js over the Redis keys it writes in place; each method
 is one Redis command or one call of the replaced `res.json`, and takes exactly the step of the
 machine in module Idempotency.
*/
module IdempotencyMiddleware {
  import opened Options
  import opened Idempotency

  class Middleware {
    var store: map<Key, Entry>
    var reqs: map<RequestId, Phase>
    var runs: seq<HandlerRun>
    var expired: map<Key, nat>

    ghost function View(): World
      reads this
    {
      World(store, reqs, runs, expired)
    }

    constructor ()
      ensures View() == EMPTY
    {
      store, reqs, runs, expired := map[], map[], [], map[];
    }

    /** Header checks and GET. */
    method LookUp(q: RequestId, request: Request, required: bool)
      requires Enabled(View(), Arrive(q, request, required))
      modifies this
      ensures View() == Step(old(View()), Arrive(q, request, required))
    {
      if request.header.None? || request.header.value == "" {
        if !required {
          reqs := reqs[q := Unguarded];
          return;
        }
        reqs := reqs[q := BadRequest];
        return;
      }
      if |request.header.value| > MAX_KEY_LENGTH {
        reqs := reqs[q := BadRequest];
        return;
      }
      var key := BuildKey(request.user, request.verb, request.url, request.header.value);
      if key in store {
        if store[key].Completed? {
          var lifetime := if key in expired then expired[key] else 0;
          reqs := reqs[q := Replayed(key, lifetime, store[key].status, store[key].body)];
          return;
        }
        reqs := reqs[q := Conflict(key)];
        return;
      }
      reqs := reqs[q := Looked(key)];
    }

    /** SET NX; the reply may get lost. */
    method ReserveKey(q: RequestId, acknowledged: bool)
      requires Enabled(View(), Reserve(q, acknowledged))
      modifies this
      ensures View() == Step(old(View()), Reserve(q, acknowledged))
    {
      var key := reqs[q].key;
      var reserved := key !in store;
      if reserved {
        store := store[key := Processing];
      }
      if !acknowledged {
        reqs := reqs[q := Broken(key)];
      } else if !reserved {
        reqs := reqs[q := Conflict(key)];
      } else {
        reqs := reqs[q := Running(key)];
      }
    }

    /** The replaced `res.json`: answer, and start the SET or DEL without waiting for it. */
    method Json(q: RequestId, status: int, body: Body)
      requires Enabled(View(), EndHandler(q, status, body))
      modifies this
      ensures View() == Step(old(View()), EndHandler(q, status, body))
    {
      var key := reqs[q].key;
      var lifetime := if key in expired then expired[key] else 0;
      runs := runs + [HandlerRun(key, lifetime, status, body)];
      reqs := reqs[q := Storing(key, status, body)];
    }

    /** The SET or DEL itself; its failure is swallowed. */
    method StoreOrDelete(q: RequestId, applied: bool)
      requires Enabled(View(), Release(q, applied))
      modifies this
      ensures View() == Step(old(View()), Release(q, applied))
    {
      var Storing(key, status, body) := reqs[q];
      if applied {
        if 200 <= status && status < 300 {
          store := store[key := Completed(status, body)];
        } else {
          store := store - {key};
        }
      }
      reqs := reqs[q := Finished(key, status, body)];
    }
  }
}
