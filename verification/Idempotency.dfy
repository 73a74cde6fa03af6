/**
 The idempotency middleware (src/middlewares/idempotency.js): look the key up, reserve it with SET NX,
 run the handler, then store its answer or delete the key. One Redis command, or one end of a handler,
 is one step; any number of requests race on any number of keys.
*/
module Idempotency {
  import opened Options

  /** A Redis key: the user id in clear, the rest hashed; the hash is taken to be injective. */
  datatype Key = Key(user: string, scope: string)

  type Body = string
  type RequestId = nat

  datatype Entry = Processing | Completed(status: int, body: Body)

  datatype Phase =
    | Looked(key: Key)                              // GET found nothing
    | Running(key: Key)                             // reserved, the handler runs
    | Storing(key: Key, status: int, body: Body)    // answered, the SET or DEL is under way
    | Replayed(key: Key, lifetime: nat, status: int, body: Body)
    | Conflict(key: Key)
    | BadRequest
    | Unguarded                                     // no key and none required: straight to the handler
    | Finished(key: Key, status: int, body: Body)
    | Broken(key: Key)                              // a Redis error, or the process died

  /** The log of ended handler runs; `lifetime` counts how often the key had expired before. */
  datatype HandlerRun = HandlerRun(key: Key, lifetime: nat, status: int, body: Body)

  datatype World = World(store: map<Key, Entry>, reqs: map<RequestId, Phase>, runs: seq<HandlerRun>,
      expired: map<Key, nat>)

  /** What arrives: the header may be missing; Redis keys come from user, method, URL and header. */
  datatype Request = Request(user: string, verb: string, url: string, header: Option<string>)

  datatype Action =
    | Arrive(q: RequestId, request: Request, required: bool)
    | Reserve(q: RequestId, acknowledged: bool)
    | EndHandler(q: RequestId, status: int, body: Body)
    | Release(q: RequestId, applied: bool)
    | Die(q: RequestId)
    | Expire(key: Key)

  const EMPTY := World(map[], map[], [], map[])

  const MAX_KEY_LENGTH := 128

  /** What buildIdempotencyKey hashes. */
  function Scope(verb: string, url: string, header: string): string {
    verb + ":" + url + ":" + header
  }

  function BuildKey(user: string, verb: string, url: string, header: string): Key {
    Key(user, Scope(verb, url, header))
  }

  predicate Successful(status: int) {
    200 <= status < 300
  }

  function Lifetime(w: World, key: Key): nat {
    if key in w.expired then w.expired[key] else 0
  }

  function Admit(w: World, request: Request, required: bool): Phase {
    if request.header.None? || request.header.value == "" then (if required then BadRequest else Unguarded)
    else if |request.header.value| > MAX_KEY_LENGTH then BadRequest
    else
      var key := BuildKey(request.user, request.verb, request.url, request.header.value);
      if key !in w.store then Looked(key)
      else match w.store[key]
        case Completed(status, body) => Replayed(key, Lifetime(w, key), status, body)
        case Processing => Conflict(key)
  }

  predicate Enabled(w: World, a: Action) {
    match a
    case Arrive(q, _, _) => q !in w.reqs
    case Reserve(q, _) => q in w.reqs && w.reqs[q].Looked?
    case EndHandler(q, _, _) => q in w.reqs && w.reqs[q].Running?
    case Release(q, _) => q in w.reqs && w.reqs[q].Storing?
    case Die(q) => q in w.reqs && (w.reqs[q].Looked? || Holds(w.reqs[q]))
    case Expire(key) => key in w.store
  }

  /** The request has reserved its key and has not released it. */
  predicate Holds(phase: Phase) {
    phase.Running? || phase.Storing?
  }

  function Step(w: World, a: Action): World {
    if !Enabled(w, a) then w
    else match a
      case Arrive(q, request, required) => w.(reqs := w.reqs[q := Admit(w, request, required)])
      case Reserve(q, acknowledged) =>
        var key := w.reqs[q].key;
        if key in w.store then w.(reqs := w.reqs[q := if acknowledged then Conflict(key) else Broken(key)])
        else w.(store := w.store[key := Processing],
            reqs := w.reqs[q := if acknowledged then Running(key) else Broken(key)])
      case EndHandler(q, status, body) =>
        var key := w.reqs[q].key;
        w.(reqs := w.reqs[q := Storing(key, status, body)],
            runs := w.runs + [HandlerRun(key, Lifetime(w, key), status, body)])
      case Release(q, applied) =>
        var Storing(key, status, body) := w.reqs[q];
        var store := if !applied then w.store
                     else if Successful(status) then w.store[key := Completed(status, body)]
                     else w.store - {key};
        w.(store := store, reqs := w.reqs[q := Finished(key, status, body)])
      case Die(q) => w.(reqs := w.reqs[q := Broken(w.reqs[q].key)])
      case Expire(key) => w.(store := w.store - {key}, expired := w.expired[key := Lifetime(w, key) + 1])
  }

  function Run(w: World, acts: seq<Action>): World
    decreases |acts|
  {
    if acts == [] then w else Step(Run(w, acts[..|acts| - 1]), acts[|acts| - 1])
  }
}
