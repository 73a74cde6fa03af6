/** When the cached dashboard can be trusted, over every interleaving of builds, writes and invalidations. */
module AnalyticsCacheProofs {
  import opened Options
  import opened Analytics
  import opened AnalyticsCache
  import Lifecycle
  import Events = ShipmentEvents
  import Payments
  import PaymentTheorems

  // ---------------------------------------------------------------- the invariant

  ghost predicate IsBuild(w: World, entry: Entry) {
    && entry.seen.Keys == QUERIES && ReadsFit(w.history, entry.seen)
    && (forall query :: query in entry.seen ==> entry.seen[query] <= entry.storedVersion)
    && entry.storedVersion < |w.history|
    && entry.dashboard == Assemble(w.history, entry.seen)
    && entry.storedAt <= w.now
  }

  ghost predicate RequestFits(w: World, phase: Phase) {
    match phase
    case Building(seen) => ReadsFit(w.history, seen)
    case Hit(entry, at) => IsBuild(w, entry) && entry.storedAt <= at <= w.now && at <= entry.storedAt + w.ttl
    case Miss(entry) => IsBuild(w, entry)
    case Broken => true
  }

  ghost predicate RequestsFit(w: World) {
    forall q :: q in w.reqs ==> RequestFits(w, w.reqs[q])
  }

  predicate SameBooks(a: Db, b: Db) {
    a.ships == b.ships && a.pays == b.pays
  }

  /** Versions that nobody invalidates the cache for differ from their predecessor in the users only. */
  ghost predicate OtherwiseUsersOnly(history: seq<Db>, writes: set<Version>) {
    forall u, v :: 0 <= u < v < |history| && v == u + 1 && v !in writes ==> SameBooks(history[u], history[v])
  }

  ghost predicate DutiesFit(w: World) {
    && w.history != []
    && (forall v :: v in w.duties ==> 0 < v < |w.history|)
    && OtherwiseUsersOnly(w.history, w.duties.Keys)
  }

  /** A duty in this state still removes the key that is cached now. */
  predicate WillRemove(duty: Duty) {
    match duty
    case Owing => true
    case Scanning(present) => present
    case Scanned(found) => found
    case Settled => false
  }

  ghost predicate CacheFits(w: World) {
    w.cache.Some? ==>
      && IsBuild(w, w.cache.value)
      && w.now <= w.cache.value.storedAt + w.ttl
      && forall v :: v in w.duties && v > w.cache.value.storedVersion ==> WillRemove(w.duties[v])
  }

  ghost predicate Inv(w: World) {
    RequestsFit(w) && DutiesFit(w) && CacheFits(w)
  }

  /** Extending the history and letting time pass changes nothing about a build. */
  lemma BuildStays(w: World, w': World, entry: Entry)
    requires IsBuild(w, entry) && w.history <= w'.history && w.now <= w'.now
    ensures IsBuild(w', entry)
  {
    assert forall v :: 0 <= v < |w.history| ==> w'.history[v] == w.history[v];
  }

  lemma RequestStays(w: World, w': World, phase: Phase)
    requires RequestFits(w, phase) && w.history <= w'.history && w.now <= w'.now && w.ttl == w'.ttl
    ensures RequestFits(w', phase)
  {
    match phase {
      case Building(seen) =>
      case Hit(entry, _) => BuildStays(w, w', entry);
      case Miss(entry) => BuildStays(w, w', entry);
      case Broken =>
    }
  }

  lemma StepGrows(w: World, a: Action)
    ensures w.history <= Step(w, a).history && w.now <= Step(w, a).now && w.ttl == Step(w, a).ttl
  {
  }

  lemma StepRequests(w: World, a: Action)
    requires Inv(w)
    ensures RequestsFit(Step(w, a))
  {
    var w' := Step(w, a);
    StepGrows(w, a);
    forall q | q in w'.reqs ensures RequestFits(w', w'.reqs[q]) {
      if q in w.reqs && w'.reqs[q] == w.reqs[q] {
        RequestStays(w, w', w.reqs[q]);
      } else if a.Store? {
        assert RequestFits(w, w.reqs[q]);
      } else if a.Read? {
        assert RequestFits(w, w.reqs[q]);
      }
    }
  }

  /** Only writes and registrations extend the history, and only writes add a duty. */
  lemma StepShape(w: World, a: Action)
    requires w.history != []
    ensures var w' := Step(w, a);
            && (!a.Write? && !a.Register? ==> w'.history == w.history)
            && (!a.Write? ==> w'.duties.Keys == w.duties.Keys)
  {
    assert Gone(w).duties.Keys == w.duties.Keys;
  }

  lemma StepDuties(w: World, a: Action)
    requires DutiesFit(w)
    ensures DutiesFit(Step(w, a))
  {
    StepShape(w, a);
  }

  lemma DutyStays(w: World, a: Action, v: Version)
    requires v in w.duties && w.cache.Some? && Step(w, a).cache == w.cache && WillRemove(w.duties[v])
    requires v < |w.history|
    ensures v in Step(w, a).duties && WillRemove(Step(w, a).duties[v])
  {
  }

  lemma NewDuty(w: World, a: Action, v: Version)
    requires v !in w.duties && v in Step(w, a).duties
    ensures WillRemove(Step(w, a).duties[v])
  {
  }

  lemma StepCache(w: World, a: Action)
    requires Inv(w)
    ensures CacheFits(Step(w, a))
  {
    var w' := Step(w, a);
    StepGrows(w, a);
    if w'.cache.Some? {
      if w'.cache == w.cache {
        BuildStays(w, w', w.cache.value);
        forall v | v in w'.duties && v > w'.cache.value.storedVersion ensures WillRemove(w'.duties[v]) {
          if v in w.duties { DutyStays(w, a, v); } else { NewDuty(w, a, v); }
        }
        CacheTime(w, a);
      } else {
        NewEntry(w, a);
      }
    }
  }

  lemma CacheTime(w: World, a: Action)
    requires w.cache.Some? && Step(w, a).cache == w.cache && w.now <= w.cache.value.storedAt + w.ttl
    ensures Step(w, a).now <= w.cache.value.storedAt + w.ttl
  {
  }

  lemma NewEntry(w: World, a: Action)
    requires Inv(w) && Step(w, a).cache.Some? && Step(w, a).cache != w.cache
    ensures CacheFits(Step(w, a))
  {
    assert a.Store? && RequestFits(w, w.reqs[a.q]);
    assert forall v :: v in w.duties ==> v < |w.history|;
  }

  lemma StepInv(w: World, a: Action)
    requires Inv(w)
    ensures Inv(Step(w, a))
  {
    StepRequests(w, a);
    StepDuties(w, a);
    StepCache(w, a);
  }

  lemma {:induction false} RunInv(configured: Option<int>, acts: seq<Action>)
    ensures Inv(Run(Init(configured), acts))
    decreases |acts|
  {
    if acts == [] {
    } else {
      RunInv(configured, acts[..|acts| - 1]);
      StepInv(Run(Init(configured), acts[..|acts| - 1]), acts[|acts| - 1]);
    }
  }

  lemma ReachableInv(w: World)
    requires Reachable(w)
    ensures Inv(w)
  {
    var configured: Option<int>, acts: seq<Action> :| w == Run(Init(configured), acts);
    RunInv(configured, acts);
  }

  // ---------------------------------------------------------------- promises

  /** A hit is a build that was stored no longer than the time to live ago. */
  lemma HitsAreYoung(w: World, q: RequestId)
    requires Reachable(w) && q in w.reqs && w.reqs[q].Hit?
    ensures var entry := w.reqs[q].entry;
            && entry.storedAt <= w.reqs[q].at <= entry.storedAt + w.ttl
            && entry.seen.Keys == QUERIES && ReadsFit(w.history, entry.seen)
            && entry.dashboard == Assemble(w.history, entry.seen)
  {
    ReachableInv(w);
    assert RequestFits(w, w.reqs[q]);
  }

  /** No write awaits its invalidation. */
  ghost predicate AllSettled(w: World) {
    forall v :: v in w.duties ==> w.duties[v].Settled?
  }

  /** Once every write has had its invalidation, whatever is cached was stored after the last of them. */
  lemma SettledCacheIsRecent(w: World, v: Version)
    requires Reachable(w) && AllSettled(w) && w.cache.Some? && v in w.duties
    ensures v <= w.cache.value.storedVersion
  {
    ReachableInv(w);
    assert !WillRemove(w.duties[v]);
  }

  /** The queries that the lifecycle and payment controllers can change. */
  predicate IsCore(query: Query) {
    query.Total? || query.ByStatus? || query.PaidTotal?
  }

  /** No invalidating write fell between one of the build's reads and its store. */
  ghost predicate Quiet(w: World, entry: Entry) {
    forall query, v :: query in entry.seen && IsCore(query) && v in w.duties ==>
        !(entry.seen[query] < v <= entry.storedVersion)
  }

  predicate SameCore(a: Dashboard, b: Dashboard) {
    a.totalShipments == b.totalShipments && a.shipmentsByStatus == b.shipmentsByStatus
        && a.totalRevenue == b.totalRevenue
  }

  /** Versions between which nobody wrote shipments or payments agree on both. */
  lemma {:induction false} CoreUnchanged(history: seq<Db>, writes: set<Version>, u: Version, v: Version)
    requires u <= v < |history|
    requires OtherwiseUsersOnly(history, writes)
    requires forall i :: i in writes ==> !(u < i <= v)
    ensures SameBooks(history[u], history[v])
    decreases v
  {
    if u < v { CoreUnchanged(history, writes, u, v - 1); }
  }

  /** Cache coherence: with every write settled, a cached quiet build shows the shipment counts and the
      revenue that a fresh build would show now. */
  lemma QuietCacheIsCoherent(w: World)
    requires Reachable(w) && AllSettled(w) && w.cache.Some? && Quiet(w, w.cache.value)
    ensures w.history != [] && SameCore(w.cache.value.dashboard, Fresh(w.history[Last(w)]))
  {
    ReachableInv(w);
    forall v | v in w.duties ensures v <= w.cache.value.storedVersion { SettledCacheIsRecent(w, v); }
    QuietReadsAgree(w, w.history, w.cache.value);
  }

  lemma QuietReadsAgree(w: World, history: seq<Db>, entry: Entry)
    requires w.history != [] && entry.seen.Keys == QUERIES && ReadsFit(w.history, entry.seen)
    requires forall query :: query in entry.seen ==> entry.seen[query] <= entry.storedVersion < |w.history|
    requires Quiet(w, entry) && SameWriters(w, history)
    requires forall v :: v in w.duties ==> v <= entry.storedVersion
    ensures SameCore(Assemble(history, entry.seen), Fresh(history[Last(w)]))
  {
    forall query | query in entry.seen && IsCore(query)
      ensures SameBooks(history[entry.seen[query]], history[Last(w)])
    {
      CoreUnchanged(history, w.duties.Keys, entry.seen[query], Last(w));
    }
    assert Total in entry.seen && ByStatus in entry.seen && PaidTotal in entry.seen;
  }

  // ---------------------------------------------------------------- exactly when

  /** A database history that the same writers, at the same moments, could have produced. */
  ghost predicate SameWriters(w: World, history: seq<Db>) {
    w.history != [] && |history| == |w.history| && OtherwiseUsersOnly(history, w.duties.Keys)
  }

  /** Whatever the writers may have written, the build shows the current counts and revenue. */
  ghost predicate RightWhatever(w: World, entry: Entry) {
    IsBuild(w, entry) && forall history :: SameWriters(w, history) ==>
        SameCore(Assemble(history, entry.seen), Fresh(history[Last(w)]))
  }

  /** No dashboard figure of the two databases agrees. */
  ghost predicate AllDiffer(a: Db, b: Db) {
    && Fresh(a).totalShipments != Fresh(b).totalShipments
    && Fresh(a).shipmentsByStatus != Fresh(b).shipmentsByStatus
    && Fresh(a).totalRevenue != Fresh(b).totalRevenue
  }

  lemma SomeDiffer() returns (a: Db, b: Db)
    ensures AllDiffer(a, b)
  {
    a := EMPTY_DB;
    var ships: Ships := map["" := Lifecycle.Shipment("", None, Events.Pending, [])];
    var pays: Pays := map[0 := Payments.Payment(0, "", 1.0, Payments.Paid, 0)];
    b := Db(ships, pays, 0, 0);
    assert WithStatus(map[], "pending") == {};
    assert WithStatus(ships, "pending") == {""};
    assert "pending" in STATUSES;
    assert Counts(map[])["pending"] == 0 && Counts(ships)["pending"] == 1;
    PaymentTheorems.RevenueSplit(pays, 0);
    assert pays - {0} == map[];
  }

  /** A history in which version v turns the one database into the other. */
  function TurnsAt(n: nat, v: Version, a: Db, b: Db): (history: seq<Db>)
    ensures |history| == n
    ensures forall i :: 0 <= i < n ==> history[i] == if i < v then a else b
  {
    seq(n, i => if i < v then a else b)
  }

  lemma TurnsFit(w: World, v: Version, a: Db, b: Db)
    requires w.history != [] && v in w.duties
    ensures SameWriters(w, TurnsAt(|w.history|, v, a, b))
  {
    var history := TurnsAt(|w.history|, v, a, b);
    forall t, u | 0 <= t < u < |history| && u == t + 1 && u !in w.duties.Keys
      ensures SameBooks(history[t], history[u])
    {
      assert history[t] == history[u];
    }
  }

  lemma LoudIsWrong(w: World, entry: Entry, query: Query, v: Version) returns (history: seq<Db>)
    requires w.history != [] && entry.seen.Keys == QUERIES && ReadsFit(w.history, entry.seen)
               && entry.storedVersion < |w.history|
    requires query in entry.seen && IsCore(query) && v in w.duties && entry.seen[query] < v <= entry.storedVersion
    ensures SameWriters(w, history) && !SameCore(Assemble(history, entry.seen), Fresh(history[Last(w)]))
  {
    var a, b := SomeDiffer();
    history := TurnsAt(|w.history|, v, a, b);
    TurnsFit(w, v, a, b);
    OldFigureShows(history, entry.seen, query, a, b);
  }

  lemma OldFigureShows(history: seq<Db>, seen: map<Query, Version>, query: Query, a: Db, b: Db)
    requires seen.Keys == QUERIES && ReadsFit(history, seen) && IsCore(query)
    requires history[seen[query]] == a && AllDiffer(a, b)
    ensures !SameCore(Assemble(history, seen), Fresh(b))
  {
    match query {
      case Total =>
      case ByStatus =>
      case PaidTotal =>
    }
  }

  /** Exactness: with every write settled, a cached build is right whatever was written if and only if it
      was quiet. */
  lemma RightExactlyIfQuiet(w: World)
    requires Reachable(w) && AllSettled(w) && w.cache.Some?
    ensures RightWhatever(w, w.cache.value) <==> Quiet(w, w.cache.value)
  {
    var entry := w.cache.value;
    ReachableInv(w);
    forall v | v in w.duties ensures v <= entry.storedVersion { SettledCacheIsRecent(w, v); }
    if Quiet(w, entry) {
      forall history | SameWriters(w, history)
        ensures SameCore(Assemble(history, entry.seen), Fresh(history[Last(w)]))
      {
        QuietReadsAgree(w, history, entry);
      }
    } else {
      var query, v :| query in entry.seen && IsCore(query) && v in w.duties
          && entry.seen[query] < v <= entry.storedVersion;
      var history := LoudIsWrong(w, entry, query, v);
      assert SameWriters(w, history);
    }
  }

  lemma ReachableStep(w: World, a: Action)
    requires Reachable(w)
    ensures Reachable(Step(w, a))
  {
    var configured: Option<int>, acts: seq<Action> :| w == Run(Init(configured), acts);
    assert (acts + [a])[..|acts|] == acts && (acts + [a])[|acts|] == a;
    assert Step(w, a) == Run(Init(configured), acts + [a]);
  }

  /** What one query adds to a build. */
  lemma {:induction false} ReadOne(w: World, q: RequestId, query: Query)
    requires Enabled(w, Read(q, query))
    ensures Step(w, Read(q, query)) == w.(reqs := w.reqs[q := Building(w.reqs[q].seen[query := Last(w)])])
  {
  }

  /** The build has seen the current version for all the queries listed, and what it had for others. */
  predicate HasRead(w: World, before: map<Query, Version>, after: map<Query, Version>, done: seq<Query>)
    requires w.history != []
  {
    && (forall query :: query in after <==> query in before || query in done)
    && (forall query :: query in after ==> after[query] == if query in done then Last(w) else before[query])
  }

  lemma {:induction false} HasReadMore(w: World, before: map<Query, Version>, after: map<Query, Version>,
      left: seq<Query>)
    requires w.history != [] && left != []
    requires HasRead(w, before[left[0] := Last(w)], after, left[1..])
    ensures HasRead(w, before, after, left)
  {
    assert left == [left[0]] + left[1..];
  }

  /** One query of a build after another. */
  lemma {:induction false} ReadAll(w: World, q: RequestId, left: seq<Query>) returns (w': World)
    requires Reachable(w) && w.history != [] && q in w.reqs && w.reqs[q].Building?
    requires forall i, j :: 0 <= i < j < |left| ==> left[i] != left[j]
    requires forall query :: query in left ==> query !in w.reqs[q].seen
    ensures Reachable(w') && q in w'.reqs && w'.reqs[q].Building?
    ensures w' == w.(reqs := w.reqs[q := w'.reqs[q]])
    ensures HasRead(w, w.reqs[q].seen, w'.reqs[q].seen, left)
    decreases |left|
  {
    if left == [] {
      w' := w;
      assert w.reqs == w.reqs[q := w.reqs[q]];
    } else {
      ReachableStep(w, Read(q, left[0]));
      ReadOne(w, q, left[0]);
      var w1 := w.(reqs := w.reqs[q := Building(w.reqs[q].seen[left[0] := Last(w)])]);
      w' := ReadAll(w1, q, left[1..]);
      HasReadMore(w, w.reqs[q].seen, w'.reqs[q].seen, left);
    }
  }

  function Written(w: World, ships: Ships, pays: Pays): seq<Db>
    requires w.history != []
  {
    w.history + [w.history[Last(w)].(ships := ships, pays := pays)]
  }

  /** An invalidation that finds nothing cached changes nothing but its own duty. */
  lemma {:induction false} InvalidateNothing(w: World, v: Version) returns (w': World)
    requires Reachable(w) && w.history != [] && w.cache.None? && v in w.duties && w.duties[v].Owing?
    ensures Reachable(w') && w' == w.(duties := w.duties[v := Settled])
  {
    ReachableStep(w, StartScan(v));
    var w1 := Step(w, StartScan(v));
    assert w1 == w.(duties := w.duties[v := Scanning(false)]);
    ReachableStep(w1, EndScan(v, false));
    var w2 := Step(w1, EndScan(v, false));
    assert w2 == w.(duties := w1.duties[v := Scanned(false)]);
    ReachableStep(w2, Delete(v));
    w' := Step(w2, Delete(v));
    assert w'.duties == w.duties[v := Settled];
  }

  /** A write that is carried through to its invalidation while nothing is cached. */
  lemma {:induction false} WriteThrough(w: World, ships: Ships, pays: Pays) returns (w': World)
    requires Reachable(w) && w.history != [] && w.cache.None?
    ensures Reachable(w')
    ensures w' == w.(history := Written(w, ships, pays), duties := w.duties[|w.history| := Settled])
  {
    ReachableStep(w, Write(ships, pays));
    w' := InvalidateNothing(Step(w, Write(ships, pays)), |w.history|);
    assert w'.duties == w.duties[|w.history| := Settled];
  }

  /** The window is real: a build reads, any one write is carried through to its invalidation, and then
      the build is stored. The dashboard from before the write is cached, and no write is left to remove
      it: it stays, in whatever way the run goes on, until the next write, the store of another build that
      is under way, or the end of its time to live. */
  lemma {:induction false} LateStoreStaysStale(w: World, q: RequestId, ships: Ships, pays: Pays) returns (w': World)
    requires Reachable(w) && w.history != [] && AllSettled(w) && w.cache.None? && q !in w.reqs
    ensures Reachable(w') && AllSettled(w') && w'.cache.Some?
    ensures w'.cache.value.dashboard == Fresh(w.history[Last(w)])
    ensures w'.history == w.history + [w.history[Last(w)].(ships := ships, pays := pays)]
    ensures forall more: seq<Action> :: LeavesCache(more) && Run(w', more).now <= w'.cache.value.storedAt + w'.ttl ==>
              Run(w', more).cache == w'.cache && BooksOf(Run(w', more)) == Some((ships, pays))
  {
    var w1 := StartBuild(w, q);
    var w2 := WriteThrough(w1, ships, pays);
    LateStore(w2, q, Last(w));
    ReachableStep(w2, Store(q));
    w' := Step(w2, Store(q));
    forall more: seq<Action> | LeavesCache(more) && Run(w', more).now <= w'.cache.value.storedAt + w'.ttl
      ensures Run(w', more).cache == w'.cache && BooksOf(Run(w', more)) == Some((ships, pays))
    {
      StaleStays(w', more);
    }
  }

  /** No write, no store and no expiry at the very deadline. */
  predicate LeavesCache(acts: seq<Action>) {
    forall i :: 0 <= i < |acts| ==> !acts[i].Write? && !acts[i].Store? && !acts[i].Expire?
  }

  /** The shipments and payments as they are now. */
  function BooksOf(w: World): Option<(Ships, Pays)> {
    if w.history == [] then None else Some((w.history[Last(w)].ships, w.history[Last(w)].pays))
  }

  lemma {:induction false} StaleStays(w: World, more: seq<Action>)
    requires AllSettled(w) && w.cache.Some? && LeavesCache(more)
    requires Run(w, more).now <= w.cache.value.storedAt + w.ttl
    ensures AllSettled(Run(w, more)) && Run(w, more).cache == w.cache && Run(w, more).ttl == w.ttl
    ensures BooksOf(Run(w, more)) == BooksOf(w)
    decreases |more|
  {
    if more == [] {
    } else {
      var front, last := more[..|more| - 1], more[|more| - 1];
      StepGrows(Run(w, front), last);
      StaleStays(w, front);
      StaleStep(Run(w, front), last);
    }
  }

  lemma {:induction false} StaleStep(w: World, a: Action)
    requires AllSettled(w) && w.cache.Some? && !a.Write? && !a.Store? && !a.Expire?
    requires Step(w, a).now <= w.cache.value.storedAt + w.ttl
    ensures AllSettled(Step(w, a)) && Step(w, a).cache == w.cache && Step(w, a).ttl == w.ttl
    ensures BooksOf(Step(w, a)) == BooksOf(w)
  {
  }

  /** A lookup that misses, and the queries of its build. */
  lemma StartBuild(w: World, q: RequestId) returns (w': World)
    requires Reachable(w) && w.history != [] && w.cache.None? && q !in w.reqs
    ensures Reachable(w') && q in w'.reqs && w' == w.(reqs := w'.reqs)
    ensures w'.reqs[q].Building? && w'.reqs[q].seen.Keys == QUERIES
    ensures forall query :: query in w'.reqs[q].seen ==> w'.reqs[q].seen[query] == Last(w)
  {
    ReachableStep(w, Get(q));
    var w1 := Step(w, Get(q));
    assert w1 == w.(reqs := w.reqs[q := Building(map[])]);
    w' := ReadAll(w1, q, [Total, ByStatus, Shippers, Drivers, PaidTotal]);
  }

  lemma LateStore(w: World, q: RequestId, v: Version)
    requires q in w.reqs && w.reqs[q].Building? && w.reqs[q].seen.Keys == QUERIES && v < |w.history|
    requires forall query :: query in w.reqs[q].seen ==> w.reqs[q].seen[query] == v
    ensures Step(w, Store(q)).cache.Some? && Step(w, Store(q)).cache.value.dashboard == Fresh(w.history[v])
    ensures Step(w, Store(q)).history == w.history && Step(w, Store(q)).duties == w.duties
  {
    assert Total in w.reqs[q].seen && ByStatus in w.reqs[q].seen && Shippers in w.reqs[q].seen;
    assert Drivers in w.reqs[q].seen && PaidTotal in w.reqs[q].seen;
  }

  // ---------------------------------------------------------------- the time to live

  /** No store, no deletion and no expiry at the very deadline. */
  predicate KeepsEntry(acts: seq<Action>) {
    forall i :: 0 <= i < |acts| ==> !acts[i].Store? && !acts[i].Delete? && !acts[i].Expire?
  }

  lemma {:induction false} EntryStays(w: World, more: seq<Action>)
    requires w.cache.Some? && KeepsEntry(more) && Run(w, more).now <= w.cache.value.storedAt + w.ttl
    ensures Run(w, more).cache == w.cache && Run(w, more).ttl == w.ttl
    decreases |more|
  {
    if more == [] {
    } else {
      var front, last := more[..|more| - 1], more[|more| - 1];
      StepGrows(Run(w, front), last);
      EntryStays(w, front);
      EntryStep(Run(w, front), last);
    }
  }

  lemma {:induction false} EntryStep(w: World, a: Action)
    requires w.cache.Some? && !a.Store? && !a.Delete? && !a.Expire?
    requires Step(w, a).now <= w.cache.value.storedAt + w.ttl
    ensures Step(w, a).cache == w.cache
  {
  }

  lemma {:induction false} TtlIsFixed(configured: Option<int>, acts: seq<Action>)
    ensures Run(Init(configured), acts).ttl == Init(configured).ttl
    decreases |acts|
  {
    if acts == [] {
    } else {
      TtlIsFixed(configured, acts[..|acts| - 1]);
      StepGrows(Run(Init(configured), acts[..|acts| - 1]), acts[|acts| - 1]);
    }
  }

  /** In every run an entry lives for the configured number of seconds, or for 300 where none is configured or it is
      not positive: it is never served later, never there later, and until then stays unless it is deleted or
      replaced. */
  lemma {:induction false} EntriesLiveAsConfigured(configured: Option<int>, acts: seq<Action>, more: seq<Action>,
      q: RequestId)
    ensures var w := Run(Init(configured), acts);
            var life := 1000 * if configured.Some? && configured.value > 0 then configured.value else 300;
            && (q in w.reqs && w.reqs[q].Hit? ==> w.reqs[q].at <= w.reqs[q].entry.storedAt + life)
            && (w.cache.Some? ==> w.now <= w.cache.value.storedAt + life)
            && (Enabled(w, Expire) ==> w.now >= w.cache.value.storedAt + life)
            && (w.cache.Some? && KeepsEntry(more) && Run(w, more).now <= w.cache.value.storedAt + life ==>
                 Run(w, more).cache == w.cache)
  {
    RunInv(configured, acts);
    TtlIsFixed(configured, acts);
    var w := Run(Init(configured), acts);
    assert q in w.reqs ==> RequestFits(w, w.reqs[q]);
    if w.cache.Some? && KeepsEntry(more) && Run(w, more).now <= w.cache.value.storedAt + w.ttl { EntryStays(w, more); }
  }

  /** A lookup is answered from the cache exactly if something is cached, with just that, and builds otherwise. */
  lemma {:induction false} LookupIsAnswered(w: World, q: RequestId)
    requires Enabled(w, Get(q))
    ensures var w' := Step(w, Get(q));
            && w' == w.(reqs := w'.reqs) && q in w'.reqs
            && (w.cache.Some? <==> w'.reqs[q].Hit?)
            && (w.cache.Some? ==> w'.reqs[q].entry == w.cache.value && w'.reqs[q].at == w.now)
            && (w.cache.None? <==> w'.reqs[q] == Building(map[]))
  {
  }

  /** What each kind of write leaves: its figures as the current version; an invalidation owed exactly if it is not
      a registration; the cache as it is. */
  lemma {:induction false} WritesAreRecorded(w: World, ships: Ships, pays: Pays, shippers: nat, drivers: nat)
    requires w.history != []
    ensures var w', before := Step(w, Write(ships, pays)), w.history[Last(w)];
            && w'.history == w.history + [Db(ships, pays, before.shippers, before.drivers)]
            && w'.duties == w.duties[Last(w') := Owing] && w'.cache == w.cache
    ensures var w', before := Step(w, Register(shippers, drivers)), w.history[Last(w)];
            && w'.history == w.history + [Db(before.ships, before.pays, shippers, drivers)]
            && w'.duties == w.duties && w'.cache == w.cache
  {
  }

  lemma {:induction false} BrokenStays(w: World, a: Action, q: RequestId)
    requires q in w.reqs && w.reqs[q].Broken?
    ensures q in Step(w, a).reqs && Step(w, a).reqs[q].Broken?
  {
  }

  lemma {:induction false} BrokenForGood(w: World, more: seq<Action>, q: RequestId)
    requires q in w.reqs && w.reqs[q].Broken?
    ensures q in Run(w, more).reqs && Run(w, more).reqs[q].Broken?
    decreases |more|
  {
    if more == [] {
    } else {
      BrokenForGood(w, more[..|more| - 1], q);
      BrokenStays(Run(w, more[..|more| - 1]), more[|more| - 1], q);
    }
  }

  /** A build that fails stores nothing, then or ever, and leaves the cache as it is. */
  lemma {:induction false} FailedBuildsStoreNothing(w: World, q: RequestId, more: seq<Action>)
    requires Enabled(w, Fail(q))
    ensures var w' := Step(w, Fail(q));
            w'.cache == w.cache && q in Run(w', more).reqs && !Enabled(Run(w', more), Store(q))
  {
    BrokenForGood(Step(w, Fail(q)), more, q);
  }
}
