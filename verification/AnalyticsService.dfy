/**
 The dashboard cache in place: getAdminAnalytics and invalidateAnalyticsCache
 (src/services/analyticsService.js), one method per database or Redis operation, and
 deleteCacheByPattern (src/services/cacheService.js).
*/
module AnalyticsService {
  import opened Options
  import opened Analytics
  import opened AnalyticsCache

  datatype Answers = Answers(totalShipments: nat, groups: seq<Group>, totalShippers: nat, totalDrivers: nat,
      revenue: seq<real>)

  /** Each answer is the query's answer on the version it read. */
  ghost predicate Answered(history: seq<Db>, seen: map<Query, Version>, answers: Answers)
    requires seen.Keys == QUERIES && ReadsFit(history, seen)
  {
    && answers.totalShipments == |history[seen[Total]].ships|
    && IsGroupBy(history[seen[ByStatus]].ships, answers.groups)
    && answers.totalShippers == history[seen[Shippers]].shippers
    && answers.totalDrivers == history[seen[Drivers]].drivers
    && IsRevenue(history[seen[PaidTotal]].pays, answers.revenue)
  }

  /** The end of buildAdminAnalytics: the dashboard of the versions that its queries read. */
  method PutTogether(ghost history: seq<Db>, ghost seen: map<Query, Version>, answers: Answers)
    returns (dashboard: Dashboard)
    requires seen.Keys == QUERIES && ReadsFit(history, seen) && Answered(history, seen, answers)
    ensures dashboard == Assemble(history, seen)
  {
    dashboard := BuildAdminAnalytics(
      history[seen[ByStatus]].ships, history[seen[PaidTotal]].pays,
      answers.totalShipments, answers.groups, answers.totalShippers, answers.totalDrivers, answers.revenue);
  }

  class Service {
    var history: seq<Db>
    var duties: map<Version, Duty>
    var cache: Option<Entry>
    var reqs: map<RequestId, Phase>
    var now: int
    var ttl: nat

    ghost function View(): World
      reads this
    {
      World(history, duties, cache, reqs, now, ttl)
    }

    constructor (configuredTtl: Option<int>)
      ensures View() == Init(configuredTtl)
    {
      history, duties, cache, reqs, now := [EMPTY_DB], map[], None, map[], 0;
      ttl := CacheTtl(configuredTtl);
    }

    /** getJsonCache: answer from the cache, or start a build. */
    method GetAdminAnalytics(q: RequestId) returns (dashboard: Option<Dashboard>)
      requires Enabled(View(), Get(q))
      modifies this`reqs
      ensures View() == Step(old(View()), Get(q))
      ensures dashboard == if cache.Some? then Some(cache.value.dashboard) else None
    {
      if cache.Some? {
        reqs := reqs[q := Hit(cache.value, now)];
        return Some(cache.value.dashboard);
      }
      reqs := reqs[q := Building(map[])];
      return None;
    }

    /** One of the queries that buildAdminAnalytics has under way. */
    method AnswerQuery(q: RequestId, query: Query)
      requires Enabled(View(), Read(q, query))
      modifies this`reqs
      ensures View() == Step(old(View()), Read(q, query))
    {
      var seen := reqs[q].seen;
      reqs := reqs[q := Building(seen[query := |history| - 1])];
    }

    /** The completed build, as PutTogether returns it, becomes the cached value. */
    method SetJsonCache(q: RequestId, dashboard: Dashboard)
      requires Enabled(View(), Store(q))
      requires dashboard == Assemble(history, reqs[q].seen)
      modifies this`cache, this`reqs
      ensures View() == Step(old(View()), Store(q))
    {
      var seen := reqs[q].seen;
      cache := Some(Entry(dashboard, seen, |history| - 1, now));
      reqs := reqs[q := Miss(cache.value)];
    }

    /** invalidateAnalyticsCache, the first scan command. */
    method BeginInvalidation(v: Version)
      requires Enabled(View(), StartScan(v))
      modifies this`duties
      ensures View() == Step(old(View()), StartScan(v))
    {
      duties := duties[v := Scanning(cache.Some?)];
    }

    /** The scan is complete. */
    method EndInvalidationScan(v: Version, found: bool)
      requires Enabled(View(), EndScan(v, found))
      modifies this`duties
      ensures View() == Step(old(View()), EndScan(v, found))
    {
      duties := duties[v := Scanned(found)];
    }

    /** Delete what the scan found, if anything. */
    method DeleteFoundKeys(v: Version)
      requires Enabled(View(), Delete(v))
      modifies this`duties, this`cache
      ensures View() == Step(old(View()), Delete(v))
    {
      if duties[v].found {
        cache := None;
        duties := map u | u in duties :: if duties[u].Scanning? then Scanning(false) else duties[u];
      }
      duties := duties[v := Settled];
    }
  }

  // ---------------------------------------------------------------- deleteCacheByPattern

  /** What the scan iterator yields: single keys or batches of them, depending on the client version. */
  datatype KeyOrBatch = Key(key: string) | Batch(keys: seq<string>)

  function KeysOf(scan: seq<KeyOrBatch>): seq<string> {
    if scan == [] then []
    else
      var last := scan[|scan| - 1];
      KeysOf(scan[..|scan| - 1]) + match last case Key(key) => [key] case Batch(keys) => keys
  }

  /** The pattern ends in its only `*`. */
  predicate Matches(prefix: string, key: string) {
    prefix <= key
  }

  /** A scan during which the keys `present` were there from beginning to end: it yields all of them that
      match, possibly more than once, and nothing that does not match. Keys that came or went meanwhile may
      or may not be among them. */
  ghost predicate ScanOf(present: set<string>, prefix: string, scan: seq<KeyOrBatch>) {
    && (forall key :: key in present && Matches(prefix, key) ==> key in KeysOf(scan))
    && (forall key :: key in KeysOf(scan) ==> Matches(prefix, key))
  }

  class Redis<V> {
    var data: map<string, V>

    constructor (data: map<string, V>)
      ensures this.data == data
    {
      this.data := data;
    }

    /** deleteCacheByPattern: no matching key that was there all along the scan is left, and every key that
        does not match, or that the scan did not yield, is kept with its value. */
    method DeleteCacheByPattern(ghost prefix: string, ghost present: set<string>, scan: seq<KeyOrBatch>)
      returns (count: nat)
      requires ScanOf(present, prefix, scan)
      modifies this
      ensures forall key :: key in data <==> key in old(data) && key !in KeysOf(scan)
      ensures forall key :: key in data ==> data[key] == old(data)[key]
      ensures forall key :: key in present && Matches(prefix, key) ==> key !in data
      ensures forall key :: key in old(data) && !Matches(prefix, key) ==> key in data
      ensures count == |KeysOf(scan)|
    {
      var keys := [];
      var i := 0;
      while i < |scan|
        invariant 0 <= i <= |scan|
        invariant keys == KeysOf(scan[..i])
      {
        assert scan[..i + 1][..i] == scan[..i];
        match scan[i] {
          case Key(key) => keys := keys + [key];
          case Batch(batch) => keys := keys + batch;
        }
        i := i + 1;
      }
      assert scan[..i] == scan;
      if |keys| > 0 {
        data := data - set key | key in keys;
      }
      count := |keys|;
    }
  }
}
