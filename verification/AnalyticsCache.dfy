/**
 The cached dashboard (src/services/analyticsService.js, src/services/cacheService.js): readers that
 look the cache up and build on a miss, writers that change the database and then invalidate.

 A build reads the database once per query, each query at its own moment, and then stores; an
 invalidation scans for the key and then deletes what the scan found. Every such operation is one step.
*/
module AnalyticsCache {
  import opened Options
  import opened Analytics

  type RequestId = nat
  type Version = nat

  datatype Query = Total | ByStatus | Shippers | Drivers | PaidTotal

  /** The stored dashboard and where it comes from: which database version each query read, and which
      version was current when it was stored. */
  datatype Entry = Entry(dashboard: Dashboard, seen: map<Query, Version>, storedVersion: Version, storedAt: int)

  /** What the request that wrote a version still has to do about the cache. An invalidation whose error
      is swallowed, or that a failed request never reaches, stays where it is for ever. */
  datatype Duty =
    | Owing
    | Scanning(present: bool)   // has the key been there ever since the scan began?
    | Scanned(found: bool)
    | Settled

  datatype Phase =
    | Building(seen: map<Query, Version>)
    | Hit(entry: Entry, at: int)
    | Miss(entry: Entry)
    | Broken

  /** `history` lists the database after every write, the current one last; `duties` has the writes that
      are followed by an invalidation, that is all except registrations. */
  datatype World = World(
    history: seq<Db>, duties: map<Version, Duty>, cache: Option<Entry>, reqs: map<RequestId, Phase>, now: int, ttl: nat)

  datatype Action =
    | Write(ships: Ships, pays: Pays)
    | Register(shippers: nat, drivers: nat)
    | StartScan(v: Version)
    | EndScan(v: Version, found: bool)
    | Delete(v: Version)
    | Get(q: RequestId)
    | Read(q: RequestId, query: Query)
    | Store(q: RequestId)
    | Fail(q: RequestId)
    | Expire
    | Tick(delta: nat)

  const QUERIES := {Total, ByStatus, Shippers, Drivers, PaidTotal}

  /** getCacheTtl, in milliseconds: the configured seconds if they are a positive integer, otherwise 300. */
  function CacheTtl(configured: Option<int>): (ttl: nat)
    ensures ttl > 0
  {
    1000 * if configured.Some? && configured.value > 0 then configured.value else 300
  }

  const EMPTY_DB := Db(map[], map[], 0, 0)

  function Init(configured: Option<int>): World {
    World([EMPTY_DB], map[], None, map[], 0, CacheTtl(configured))
  }

  /** The versions the queries of a build have read. */
  ghost predicate ReadsFit(history: seq<Db>, seen: map<Query, Version>) {
    forall query :: query in seen ==> seen[query] < |history|
  }

  /** The dashboard put together from the answers of a complete build. */
  ghost function Assemble(history: seq<Db>, seen: map<Query, Version>): Dashboard
    requires seen.Keys == QUERIES && ReadsFit(history, seen)
  {
    Dashboard(Fresh(history[seen[Total]]).totalShipments,
              Fresh(history[seen[ByStatus]]).shipmentsByStatus,
              Fresh(history[seen[Shippers]]).totalShippers,
              Fresh(history[seen[Drivers]]).totalDrivers,
              Fresh(history[seen[PaidTotal]]).totalRevenue)
  }

  function Last(w: World): Version
    requires w.history != []
  {
    |w.history| - 1
  }

  ghost predicate Enabled(w: World, a: Action) {
    && w.history != []
    && match a
       case Write(_, _) => true
       case Register(_, _) => true
       case StartScan(v) => v in w.duties && w.duties[v].Owing?
       // SCAN returns every key that is there from its beginning to its end
       case EndScan(v, found) => v in w.duties && w.duties[v].Scanning? && (w.duties[v].present ==> found)
       case Delete(v) => v in w.duties && w.duties[v].Scanned?
       case Get(q) => q !in w.reqs
       case Read(q, query) => q in w.reqs && w.reqs[q].Building? && query !in w.reqs[q].seen
       case Store(q) =>
         q in w.reqs && w.reqs[q].Building? && w.reqs[q].seen.Keys == QUERIES && ReadsFit(w.history, w.reqs[q].seen)
       case Fail(q) => q in w.reqs && w.reqs[q].Building?
       // at its deadline a key may be gone or still be there; after it, it is gone
       case Expire => w.cache.Some? && w.now >= w.cache.value.storedAt + w.ttl
       case Tick(_) => true
  }

  /** The key disappears: no scan under way has seen it all along. */
  function Gone(w: World): World {
    w.(cache := None, duties := map v | v in w.duties :: if w.duties[v].Scanning? then Scanning(false) else w.duties[v])
  }

  function SetDuty(w: World, v: Version, duty: Duty): World {
    w.(duties := w.duties[v := duty])
  }

  ghost function Step(w: World, a: Action): World {
    if !Enabled(w, a) then w
    else match a
      case Write(ships, pays) =>
        w.(history := w.history + [w.history[Last(w)].(ships := ships, pays := pays)],
            duties := w.duties[|w.history| := Owing])
      case Register(shippers, drivers) =>
        w.(history := w.history + [w.history[Last(w)].(shippers := shippers, drivers := drivers)])
      case StartScan(v) => SetDuty(w, v, Scanning(w.cache.Some?))
      case EndScan(v, found) => SetDuty(w, v, Scanned(found))
      case Delete(v) => SetDuty(if w.duties[v].found then Gone(w) else w, v, Settled)
      case Get(q) =>
        w.(reqs := w.reqs[q := if w.cache.Some? then Hit(w.cache.value, w.now) else Building(map[])])
      case Read(q, query) => w.(reqs := w.reqs[q := Building(w.reqs[q].seen[query := Last(w)])])
      case Store(q) =>
        var seen := w.reqs[q].seen;
        var entry := Entry(Assemble(w.history, seen), seen, Last(w), w.now);
        w.(cache := Some(entry), reqs := w.reqs[q := Miss(entry)])
      case Fail(q) => w.(reqs := w.reqs[q := Broken])
      case Expire => Gone(w)
      case Tick(delta) =>
        var later := w.(now := w.now + delta);
        if w.cache.Some? && later.now > w.cache.value.storedAt + w.ttl then Gone(later) else later
  }

  ghost function Run(w: World, acts: seq<Action>): World
    decreases |acts|
  {
    if acts == [] then w else Step(Run(w, acts[..|acts| - 1]), acts[|acts| - 1])
  }

  ghost predicate Reachable(w: World) {
    exists configured: Option<int>, acts: seq<Action> :: w == Run(Init(configured), acts)
  }
}
