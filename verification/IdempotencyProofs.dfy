/** The promises of the idempotency middleware over every interleaving. */
module IdempotencyProofs {
  import opened Options
  import opened Idempotency

  ghost predicate Held(w: World, key: Key) {
    exists q :: q in w.reqs && Holds(w.reqs[q]) && w.reqs[q].key == key
  }

  /** A reservation does not outlive its Redis entry: the key never expires under a request that holds it. */
  ghost predicate TimelyFrom(w: World, acts: seq<Action>)
    decreases |acts|
  {
    acts == [] ||
    (TimelyFrom(w, acts[..|acts| - 1]) &&
     (acts[|acts| - 1].Expire? ==> !Held(Run(w, acts[..|acts| - 1]), acts[|acts| - 1].key)))
  }

  ghost predicate Timely(acts: seq<Action>) {
    TimelyFrom(EMPTY, acts)
  }

  // ---------------------------------------------------------------- the invariant

  ghost predicate Exclusive(w: World) {
    forall q, r ::
      q in w.reqs && r in w.reqs && Holds(w.reqs[q]) && Holds(w.reqs[r]) && w.reqs[q].key == w.reqs[r].key ==>
        q == r
  }

  /** Every held key still has its entry. */
  ghost predicate HeldHasEntry(w: World) {
    forall q :: q in w.reqs && Holds(w.reqs[q]) ==> w.reqs[q].key in w.store
  }

  /** A held key is in the store and reads `processing`. */
  ghost predicate HeldIsProcessing(w: World) {
    forall q :: q in w.reqs && Holds(w.reqs[q]) ==> w.reqs[q].key in w.store && w.store[w.reqs[q].key] == Processing
  }

  /** Runs `i` and `j` are successes of one key in one lifetime of the key. */
  predicate TwinSuccess(w: World, i: int, j: int) {
    && 0 <= i < |w.runs| && 0 <= j < |w.runs| && Successful(w.runs[i].status) && Successful(w.runs[j].status)
    && w.runs[i].key == w.runs[j].key && w.runs[i].lifetime == w.runs[j].lifetime
  }

  ghost predicate OneSuccess(w: World) {
    forall i, j :: TwinSuccess(w, i, j) ==> i == j
  }

  predicate CurrentSuccess(w: World, i: int) {
    0 <= i < |w.runs| && Successful(w.runs[i].status) && w.runs[i].lifetime == Lifetime(w, w.runs[i].key)
  }

  ghost predicate Occupied(w: World, key: Key) {
    && key in w.store
    && forall q :: q in w.reqs && Holds(w.reqs[q]) && w.reqs[q].key == key ==>
         w.reqs[q].Storing? && Successful(w.reqs[q].status)
  }

  /** After a success in the current lifetime the key stays occupied, and the only request that may
      still hold it is one that is storing a success. */
  ghost predicate SuccessOccupies(w: World) {
    forall i :: CurrentSuccess(w, i) ==> Occupied(w, w.runs[i].key)
  }

  predicate LoggedSuccess(w: World, key: Key, lifetime: nat, status: int, body: Body) {
    HandlerRun(key, lifetime, status, body) in w.runs && Successful(status)
  }

  ghost predicate StoredLogged(w: World) {
    forall key :: key in w.store && w.store[key].Completed? ==>
      LoggedSuccess(w, key, Lifetime(w, key), w.store[key].status, w.store[key].body)
  }

  ghost predicate StoringLogged(w: World) {
    forall q :: q in w.reqs && w.reqs[q].Storing? ==>
      HandlerRun(w.reqs[q].key, Lifetime(w, w.reqs[q].key), w.reqs[q].status, w.reqs[q].body) in w.runs
  }

  ghost predicate ReplaysLogged(w: World) {
    forall q :: q in w.reqs && w.reqs[q].Replayed? ==>
      LoggedSuccess(w, w.reqs[q].key, w.reqs[q].lifetime, w.reqs[q].status, w.reqs[q].body)
  }

  ghost predicate AnswersLogged(w: World) {
    StoredLogged(w) && StoringLogged(w) && ReplaysLogged(w)
  }

  ghost predicate Inv(w: World) {
    Exclusive(w) && HeldIsProcessing(w) && LifetimesPast(w) && OneSuccess(w) && SuccessOccupies(w) && AnswersLogged(w)
  }

  lemma StepExclusive(w: World, a: Action)
    requires Exclusive(w) && HeldHasEntry(w)
    ensures Exclusive(Step(w, a))
  {
  }

  lemma StepHeld(w: World, a: Action)
    requires Exclusive(w) && HeldIsProcessing(w) && (a.Expire? ==> !Held(w, a.key))
    ensures HeldIsProcessing(Step(w, a))
  {
  }

  lemma StepSuccess(w: World, a: Action)
    requires HeldIsProcessing(w) && OneSuccess(w) && SuccessOccupies(w)
    ensures OneSuccess(Step(w, a))
  {
    var w' := Step(w, a);
    forall i, j | TwinSuccess(w', i, j) ensures i == j {
      if i < |w.runs| && j < |w.runs| {
        assert TwinSuccess(w, i, j);
      } else if CurrentSuccess(w, i) || CurrentSuccess(w, j) {
        assert false;
      }
    }
  }

  lemma StaysOccupied(w: World, a: Action, key: Key)
    requires Occupied(w, key) && HeldIsProcessing(w) && (a.Expire? ==> a.key != key)
    ensures Occupied(Step(w, a), key)
  {
  }

  lemma SuccessIsOccupied(w: World, a: Action)
    requires Enabled(w, a) && a.EndHandler? && Exclusive(w) && HeldIsProcessing(w) && Successful(a.status)
    ensures Occupied(Step(w, a), w.reqs[a.q].key)
  {
  }

  lemma StepOccupies(w: World, a: Action)
    requires Exclusive(w) && HeldIsProcessing(w) && SuccessOccupies(w) && LifetimesPast(w)
    ensures SuccessOccupies(Step(w, a))
  {
    var w' := Step(w, a);
    forall i | CurrentSuccess(w', i) ensures Occupied(w', w'.runs[i].key) {
      if i < |w.runs| {
        assert CurrentSuccess(w, i);
        StaysOccupied(w, a, w.runs[i].key);
      } else {
        SuccessIsOccupied(w, a);
      }
    }
  }

  ghost predicate LifetimesPast(w: World) {
    forall i :: 0 <= i < |w.runs| ==> w.runs[i].lifetime <= Lifetime(w, w.runs[i].key)
  }

  lemma StepLifetimes(w: World, a: Action)
    requires LifetimesPast(w)
    ensures LifetimesPast(Step(w, a))
  {
  }

  lemma RunsOnlyGrow(w: World, a: Action)
    ensures w.runs <= Step(w, a).runs
    ensures forall run :: run in w.runs ==> run in Step(w, a).runs
  {
  }

  lemma StepStored(w: World, a: Action)
    requires StoredLogged(w) && StoringLogged(w)
    ensures StoredLogged(Step(w, a))
  {
    RunsOnlyGrow(w, a);
  }

  lemma StepStoring(w: World, a: Action)
    requires StoringLogged(w) && (a.Expire? ==> !Held(w, a.key))
    ensures StoringLogged(Step(w, a))
  {
    RunsOnlyGrow(w, a);
    if Enabled(w, a) && a.EndHandler? {
      assert Step(w, a).runs[|w.runs|] in Step(w, a).runs;
    }
  }

  lemma StepReplays(w: World, a: Action)
    requires StoredLogged(w) && ReplaysLogged(w)
    ensures ReplaysLogged(Step(w, a))
  {
    RunsOnlyGrow(w, a);
  }

  lemma StepInv(w: World, a: Action)
    requires Inv(w) && (a.Expire? ==> !Held(w, a.key))
    ensures Inv(Step(w, a))
  {
    StepExclusive(w, a);
    StepHeld(w, a);
    StepLifetimes(w, a);
    StepSuccess(w, a);
    StepOccupies(w, a);
    StepStored(w, a);
    StepStoring(w, a);
    StepReplays(w, a);
  }

  lemma {:induction false} RunInv(acts: seq<Action>)
    requires Timely(acts)
    ensures Inv(Run(EMPTY, acts))
    decreases |acts|
  {
    if acts == [] {
    } else {
      assert Timely(acts[..|acts| - 1]);
      RunInv(acts[..|acts| - 1]);
      StepInv(Run(EMPTY, acts[..|acts| - 1]), acts[|acts| - 1]);
    }
  }

  // ---------------------------------------------------------------- promises

  /** At most one request per key is between its reservation and its release. */
  lemma OneHolderPerKey(acts: seq<Action>, q: RequestId, r: RequestId)
    requires Timely(acts)
    requires var w := Run(EMPTY, acts);
             && q in w.reqs && r in w.reqs && Holds(w.reqs[q]) && Holds(w.reqs[r])
             && w.reqs[q].key == w.reqs[r].key
    ensures q == r
  {
    RunInv(acts);
  }

  /** Within one lifetime of a key at most one handler run ends in 2xx. */
  lemma OneSuccessPerLifetime(acts: seq<Action>, i: nat, j: nat)
    requires Timely(acts) && TwinSuccess(Run(EMPTY, acts), i, j)
    ensures i == j
  {
    RunInv(acts);
  }

  /** Every replay returns the status and body of a successful run of that key, in the lifetime in
      which it was replayed; by OneSuccessPerLifetime that is the only one. */
  lemma ReplaysAreFaithful(acts: seq<Action>, q: RequestId) returns (i: nat)
    requires Timely(acts) && q in Run(EMPTY, acts).reqs && Run(EMPTY, acts).reqs[q].Replayed?
    ensures var w := Run(EMPTY, acts);
            && i < |w.runs| && Successful(w.runs[i].status)
            && w.runs[i] == HandlerRun(w.reqs[q].key, w.reqs[q].lifetime, w.reqs[q].status, w.reqs[q].body)
            && 200 <= w.reqs[q].status <= 299
  {
    RunInv(acts);
    var w := Run(EMPTY, acts);
    var p := w.reqs[q];
    assert LoggedSuccess(w, p.key, p.lifetime, p.status, p.body);
    i :| i < |w.runs| && w.runs[i] == HandlerRun(p.key, p.lifetime, p.status, p.body);
  }

  /** An entry is changed or removed only by the release of the request that holds its key, or by its
      expiry: a refused request never touches another's reservation. */
  lemma OnlyTheHolderReleases(acts: seq<Action>, a: Action, key: Key)
    requires Timely(acts) && key in Run(EMPTY, acts).store && !a.Expire?
    requires var w := Run(EMPTY, acts); key !in Step(w, a).store || Step(w, a).store[key] != w.store[key]
    ensures var w := Run(EMPTY, acts);
            && a.Release? && a.applied && a.q in w.reqs && w.reqs[a.q].Storing? && w.reqs[a.q].key == key
            && (forall r :: r in w.reqs && Holds(w.reqs[r]) && w.reqs[r].key == key ==> r == a.q)
  {
    RunInv(acts);
  }

  /** Alone on a key: a success is stored and replayed, word for word, to the next request ... */
  lemma SuccessIsReplayed(w: World, q: RequestId, r: RequestId, request: Request, required: bool, status: int,
      body: Body)
    requires q !in w.reqs && r !in w.reqs && q != r && 200 <= status <= 299
    requires request.header.Some? && 0 < |request.header.value| <= MAX_KEY_LENGTH
    requires BuildKey(request.user, request.verb, request.url, request.header.value) !in w.store
    ensures var w1 := Step(Step(w, Arrive(q, request, required)), Reserve(q, true));
            var w2 := Step(Step(Step(w1, EndHandler(q, status, body)), Release(q, true)), Arrive(r, request, required));
            && w1.reqs[q].Running?
            && r in w2.reqs && w2.reqs[r].Replayed? && w2.reqs[r].status == status && w2.reqs[r].body == body
  {
  }

  /** ... and a failure frees the key, so that the next request runs the handler. */
  lemma FailureIsRetried(w: World, q: RequestId, r: RequestId, request: Request, required: bool, status: int,
      body: Body)
    requires q !in w.reqs && r !in w.reqs && q != r && !(200 <= status <= 299)
    requires request.header.Some? && 0 < |request.header.value| <= MAX_KEY_LENGTH
    requires BuildKey(request.user, request.verb, request.url, request.header.value) !in w.store
    ensures var w1 := Step(Step(w, Arrive(q, request, required)), Reserve(q, true));
            var w2 := Step(Step(w1, EndHandler(q, status, body)), Release(q, true));
            var w3 := Step(Step(w2, Arrive(r, request, required)), Reserve(r, true));
            w2.store == w.store && r in w3.reqs && w3.reqs[r].Running?
  {
    var key := BuildKey(request.user, request.verb, request.url, request.header.value);
    assert w.store[key := Processing] - {key} == w.store;
  }

  // ---------------------------------------------------------------- who gets past the middleware

  predicate Keyless(request: Request) {
    request.header.None? || request.header.value == ""
  }

  predicate HasKey(request: Request) {
    request.header.Some? && 0 < |request.header.value| <= MAX_KEY_LENGTH
  }

  function KeyOf(request: Request): Key
    requires HasKey(request)
  {
    BuildKey(request.user, request.verb, request.url, request.header.value)
  }

  /** What each arrival is answered: straight to the handler only without a key where none is required, 400 for
      a missing or overlong key, 409 while the key is being processed, the stored answer once it is completed,
      and otherwise on to the reservation. It changes no entry. */
  lemma {:induction false} ArrivalIsAnswered(w: World, q: RequestId, request: Request, required: bool)
    requires q !in w.reqs
    ensures var w' := Step(w, Arrive(q, request, required));
            && w' == w.(reqs := w'.reqs) && q in w'.reqs
            && (w'.reqs[q].Unguarded? <==> Keyless(request) && !required)
            && (w'.reqs[q].BadRequest? <==> if Keyless(request) then required else !HasKey(request))
            && (HasKey(request) ==>
                 var key := KeyOf(request);
                 && (w'.reqs[q] == Looked(key) <==> key !in w.store)
                 && (w'.reqs[q] == Conflict(key) <==> key in w.store && w.store[key].Processing?)
                 && (w'.reqs[q].Replayed? <==> key in w.store && w.store[key].Completed?)
                 && (w'.reqs[q].Replayed? ==>
                      w'.reqs[q].key == key && w.store[key] == Completed(w'.reqs[q].status, w'.reqs[q].body)))
  {
  }

  /** What each reservation is answered: it is made exactly if the key has no entry, and the request goes on to the
      handler exactly if it learns of that; one that finds an entry is answered 409 and changes nothing. */
  lemma {:induction false} ReservationIsAnswered(w: World, q: RequestId, acknowledged: bool)
    requires Enabled(w, Reserve(q, acknowledged))
    ensures var w', key := Step(w, Reserve(q, acknowledged)), w.reqs[q].key;
            && w'.runs == w.runs && q in w'.reqs
            && w'.store == (if key in w.store then w.store else w.store[key := Processing])
            && (w'.reqs[q] == Running(key) <==> acknowledged && key !in w.store)
            && (w'.reqs[q] == Conflict(key) <==> acknowledged && key in w.store)
            && (w'.reqs[q] == Broken(key) <==> !acknowledged)
  {
  }

  predicate IsArrivalOf(a: Action, q: RequestId) {
    a.Arrive? && a.q == q
  }

  /** The request's first, and only effective, arrival. */
  ghost predicate Arrives(acts: seq<Action>, q: RequestId, request: Request, required: bool) {
    exists i :: 0 <= i < |acts| && acts[i] == Arrive(q, request, required) && NotYet(acts, i, q)
  }

  ghost predicate NotYet(acts: seq<Action>, n: nat, q: RequestId)
    requires n <= |acts|
  {
    forall j :: 0 <= j < n ==> !IsArrivalOf(acts[j], q)
  }

  lemma {:induction false} UnknownUntilArrival(acts: seq<Action>, q: RequestId)
    requires NotYet(acts, |acts|, q)
    ensures q !in Run(EMPTY, acts).reqs
    decreases |acts|
  {
    if acts == [] {
    } else {
      UnknownUntilArrival(acts[..|acts| - 1], q);
      assert !IsArrivalOf(acts[|acts| - 1], q);
    }
  }

  /** Only its arrival sends a request past the middleware, or refuses it as malformed. */
  lemma {:induction false} GuardIsDecided(w: World, a: Action, q: RequestId)
    requires q in w.reqs
    ensures q in Step(w, a).reqs
    ensures Step(w, a).reqs[q].Unguarded? <==> w.reqs[q].Unguarded?
    ensures Step(w, a).reqs[q].BadRequest? <==> w.reqs[q].BadRequest?
  {
  }

  /** In every run, a request goes to its handler unguarded if and only if it came without a key on a route that
      requires none, and is refused with 400 if and only if it came without one on a route that requires one, or
      with one of more than 128 characters. */
  lemma {:induction false} GuardAlongRuns(acts: seq<Action>, q: RequestId, request: Request, required: bool)
    requires Arrives(acts, q, request, required)
    ensures var w := Run(EMPTY, acts);
            && q in w.reqs
            && (w.reqs[q].Unguarded? <==> Keyless(request) && !required)
            && (w.reqs[q].BadRequest? <==>
                 (Keyless(request) && required) || (request.header.Some? && |request.header.value| > 128))
    decreases |acts|
  {
    var i :| 0 <= i < |acts| && acts[i] == Arrive(q, request, required) && NotYet(acts, i, q);
    var front, last := acts[..|acts| - 1], acts[|acts| - 1];
    if i == |acts| - 1 {
      UnknownUntilArrival(front, q);
      ArrivalIsAnswered(Run(EMPTY, front), q, request, required);
    } else {
      assert front[i] == acts[i] && NotYet(front, i, q);
      GuardAlongRuns(front, q, request, required);
      GuardIsDecided(Run(EMPTY, front), last, q);
    }
  }

  /** At its i-th step the run reserves the key of request q, which had no entry, and q learns of it. */
  ghost predicate ReservedAt(acts: seq<Action>, i: int, q: RequestId, key: Key) {
    && 0 <= i < |acts| && acts[i] == Reserve(q, true)
    && (var w := Run(EMPTY, acts[..i]); q in w.reqs && w.reqs[q] == Looked(key) && key !in w.store)
  }

  predicate WasReserved(phase: Phase) {
    Holds(phase) || phase.Finished?
  }

  lemma {:induction false} ReservationBegins(w: World, a: Action, q: RequestId)
    requires q in Step(w, a).reqs && WasReserved(Step(w, a).reqs[q])
    ensures q in w.reqs
    ensures var key := Step(w, a).reqs[q].key;
            || (WasReserved(w.reqs[q]) && w.reqs[q].key == key)
            || (a == Reserve(q, true) && w.reqs[q] == Looked(key) && key !in w.store)
  {
  }

  /** Every handler that the middleware lets run, and that is running, has answered or is done, had reserved its key
      first; so where every route requires a key, no handler runs without a reservation. */
  lemma {:induction false} HandlersAreReserved(acts: seq<Action>, q: RequestId) returns (i: int)
    requires q in Run(EMPTY, acts).reqs && WasReserved(Run(EMPTY, acts).reqs[q])
    ensures ReservedAt(acts, i, q, Run(EMPTY, acts).reqs[q].key)
    decreases |acts|
  {
    var k := |acts| - 1;
    var w := Run(EMPTY, acts[..k]);
    ReservationBegins(w, acts[k], q);
    if WasReserved(w.reqs[q]) {
      i := HandlersAreReserved(acts[..k], q);
      assert acts[..k][..i] == acts[..i];
    } else {
      i := k;
    }
  }

  /** What a guarded handler has answered is in the log. */
  predicate AnswerIsLogged(w: World, phase: Phase) {
    phase.Finished? || phase.Storing? ==>
      exists i :: 0 <= i < |w.runs|
        && w.runs[i].key == phase.key && w.runs[i].status == phase.status && w.runs[i].body == phase.body
  }

  lemma {:induction false} AnswerStaysLogged(w: World, a: Action, phase: Phase)
    requires AnswerIsLogged(w, phase)
    ensures AnswerIsLogged(Step(w, a), phase)
  {
    RunsOnlyGrow(w, a);
    if phase.Finished? || phase.Storing? {
      var i :| 0 <= i < |w.runs|
          && w.runs[i].key == phase.key && w.runs[i].status == phase.status && w.runs[i].body == phase.body;
      assert Step(w, a).runs[i] == w.runs[i];
    }
  }

  lemma {:induction false} NewAnswerIsLogged(w: World, a: Action, q: RequestId)
    requires q in Step(w, a).reqs && (q in w.reqs ==> AnswerIsLogged(w, w.reqs[q]))
    ensures AnswerIsLogged(Step(w, a), Step(w, a).reqs[q])
  {
    var w' := Step(w, a);
    if q in w.reqs && w'.reqs[q] == w.reqs[q] {
      AnswerStaysLogged(w, a, w.reqs[q]);
    } else if Enabled(w, a) && a.EndHandler? {
      var run := w'.runs[|w.runs|];
      assert run.key == w'.reqs[q].key && run.status == w'.reqs[q].status && run.body == w'.reqs[q].body;
    } else if Enabled(w, a) && a.Release? {
      AnswerStaysLogged(w, a, w.reqs[q]);
      assert w'.reqs[q] == Finished(w.reqs[q].key, w.reqs[q].status, w.reqs[q].body);
    }
  }

  /** In every run a guarded request that is done was answered with the status and body of a logged handler run of
      its key. */
  lemma {:induction false} ClientsGetTheHandlersAnswer(acts: seq<Action>, q: RequestId)
    requires q in Run(EMPTY, acts).reqs
    ensures AnswerIsLogged(Run(EMPTY, acts), Run(EMPTY, acts).reqs[q])
    decreases |acts|
  {
    var w := Run(EMPTY, acts[..|acts| - 1]);
    if q in w.reqs { ClientsGetTheHandlersAnswer(acts[..|acts| - 1], q); }
    NewAnswerIsLogged(w, acts[|acts| - 1], q);
  }

  lemma {:induction false} NoneUnguarded(acts: seq<Action>, q: RequestId)
    requires forall i :: 0 <= i < |acts| && acts[i].Arrive? ==> acts[i].required
    requires q in Run(EMPTY, acts).reqs
    ensures !Run(EMPTY, acts).reqs[q].Unguarded?
    decreases |acts|
  {
    var front, last := acts[..|acts| - 1], acts[|acts| - 1];
    if q in Run(EMPTY, front).reqs {
      NoneUnguarded(front, q);
      GuardIsDecided(Run(EMPTY, front), last, q);
    }
  }

  // ---------------------------------------------------------------- where the promises stop

  ghost predicate StaysExclusive(w: World) {
    forall acts: seq<Action> :: TimelyFrom(w, acts) ==> Exclusive(Run(w, acts))
  }

  /** Some request yields this key. */
  ghost predicate IsBuilt(key: Key) {
    exists request: Request ::
      HasKey(request) && key == BuildKey(request.user, request.verb, request.url, request.header.value)
  }

  ghost predicate KeysBuilt(w: World) {
    forall q :: q in w.reqs && (w.reqs[q].Looked? || Holds(w.reqs[q])) ==> IsBuilt(w.reqs[q].key)
  }

  lemma {:induction false} StepKeysBuilt(w: World, a: Action)
    requires KeysBuilt(w)
    ensures KeysBuilt(Step(w, a))
  {
    if a.Arrive? && Enabled(w, a) && HasKey(a.request) {
      assert IsBuilt(BuildKey(a.request.user, a.request.verb, a.request.url, a.request.header.value));
    }
  }

  lemma {:induction false} RunKeysBuilt(acts: seq<Action>)
    ensures KeysBuilt(Run(EMPTY, acts))
    decreases |acts|
  {
    if acts == [] {
    } else {
      RunKeysBuilt(acts[..|acts| - 1]);
      StepKeysBuilt(Run(EMPTY, acts[..|acts| - 1]), acts[|acts| - 1]);
    }
  }

  lemma {:induction false} StepEntries(w: World, a: Action)
    requires Exclusive(w) && HeldHasEntry(w) && (a.Expire? ==> !Held(w, a.key))
    ensures HeldHasEntry(Step(w, a))
  {
  }

  lemma {:induction false} RunEntries(w: World, acts: seq<Action>)
    requires Exclusive(w) && HeldHasEntry(w) && TimelyFrom(w, acts)
    ensures Exclusive(Run(w, acts)) && HeldHasEntry(Run(w, acts))
    decreases |acts|
  {
    if acts == [] {
    } else {
      RunEntries(w, acts[..|acts| - 1]);
      StepExclusive(Run(w, acts[..|acts| - 1]), acts[|acts| - 1]);
      StepEntries(Run(w, acts[..|acts| - 1]), acts[|acts| - 1]);
    }
  }

  lemma {:induction false} FreshId(ids: set<RequestId>) returns (unused: RequestId)
    ensures forall q :: q in ids ==> q < unused
  {
    if ids == {} {
      unused := 0;
    } else {
      var q :| q in ids;
      var rest := FreshId(ids - {q});
      unused := if rest > q then rest else q + 1;
      assert forall p :: p in ids ==> p == q || p in ids - {q};
    }
  }

  /** A holder whose entry is gone admits a second one: the next request with its key. */
  lemma {:induction false} GoneEntryAdmits(w: World, q: RequestId, r: RequestId, request: Request)
    requires q in w.reqs && Holds(w.reqs[q]) && r !in w.reqs && HasKey(request)
    requires w.reqs[q].key == BuildKey(request.user, request.verb, request.url, request.header.value)
    requires w.reqs[q].key !in w.store
    ensures var acts := [Arrive(r, request, true), Reserve(r, true)];
            TimelyFrom(w, acts) && !Exclusive(Run(w, acts))
  {
    var acts := [Arrive(r, request, true), Reserve(r, true)];
    var w1 := Step(w, acts[0]);
    assert acts[..1] == [acts[0]] && [acts[0]][..0] == [];
    assert w1 == w.(reqs := w.reqs[r := Looked(w.reqs[q].key)]) && w1 == Run(w, acts[..1]);
    var w2 := Step(w1, acts[1]);
    assert w2 == Run(w, acts) && q in w2.reqs && w2.reqs[q] == w.reqs[q] && w2.reqs[r] == Running(w.reqs[q].key);
  }

  /** From a state that any run, timely or not, can reach, there is never more than one holder per key again,
      as long as no further entry expires under a holder, if and only if there is none now and every held key
      still has its entry in the store. */
  lemma {:induction false} ExclusiveIffEntriesStand(acts: seq<Action>)
    ensures var w := Run(EMPTY, acts); StaysExclusive(w) <==> Exclusive(w) && HeldHasEntry(w)
  {
    var w := Run(EMPTY, acts);
    if Exclusive(w) && HeldHasEntry(w) {
      forall more: seq<Action> | TimelyFrom(w, more) ensures Exclusive(Run(w, more)) { RunEntries(w, more); }
    } else if StaysExclusive(w) {
      assert TimelyFrom(w, []) && Run(w, []) == w;
      var q :| q in w.reqs && Holds(w.reqs[q]) && w.reqs[q].key !in w.store;
      RunKeysBuilt(acts);
      assert IsBuilt(w.reqs[q].key);
      var request: Request :| HasKey(request)
          && w.reqs[q].key == BuildKey(request.user, request.verb, request.url, request.header.value);
      var r := FreshId(w.reqs.Keys);
      GoneEntryAdmits(w, q, r, request);
    }
  }

  /** If the entry does expire under its holder `q`, a second request runs the handler at the same
      time, and the failure of the first then deletes the reservation of the second. */
  lemma LateExpiryAdmitsTwo(w: World, q: RequestId, r: RequestId, request: Request, required: bool, status: int,
      body: Body)
    requires q !in w.reqs && r !in w.reqs && q != r && !(200 <= status <= 299)
    requires request.header.Some? && 0 < |request.header.value| <= MAX_KEY_LENGTH
    requires BuildKey(request.user, request.verb, request.url, request.header.value) !in w.store
    ensures var key := BuildKey(request.user, request.verb, request.url, request.header.value);
            var w1 := Step(Step(Step(w, Arrive(q, request, required)), Reserve(q, true)), Expire(key));
            var w2 := Step(Step(w1, Arrive(r, request, required)), Reserve(r, true));
            var w3 := Step(Step(w2, EndHandler(q, status, body)), Release(q, true));
            && q in w2.reqs && r in w2.reqs && w2.reqs[q] == Running(key) && w2.reqs[r] == Running(key)
            && key in w2.store && key !in w3.store && w3.reqs[r] == Running(key)
  {
  }

  // ---------------------------------------------------------------- keys

  predicate NoColon(s: string) {
    ':' !in s
  }

  lemma SplitAtFirst(a: string, b: string, c: string, d: string)
    requires NoColon(a) && NoColon(c) && a + ":" + b == c + ":" + d
    ensures a == c && b == d
  {
    var s := a + ":" + b;
    assert s == c + ":" + d && s[|a|] == ':' && s[|c|] == ':';
    assert forall i :: 0 <= i < |a| ==> s[i] == a[i];
    assert forall i :: 0 <= i < |c| ==> s[i] == c[i];
    assert a == s[..|a|] && c == s[..|c|];
    assert b == s[|a| + 1..] && d == s[|c| + 1..];
  }

  /** The second URL continues the first with a colon, and the first header makes up for it. */
  predicate Shifted(url1: string, header1: string, url2: string, header2: string) {
    && |url1| < |url2| && url2[..|url1|] == url1 && url2[|url1|] == ':'
    && header1 == url2[|url1| + 1..] + ":" + header2
  }

  lemma TailsMeet(url1: string, header1: string, url2: string, header2: string)
    requires |url1| <= |url2|
    ensures url1 + ":" + header1 == url2 + ":" + header2 <==>
            ((url1 == url2 && header1 == header2) || Shifted(url1, header1, url2, header2))
  {
    var s, t := url1 + ":" + header1, url2 + ":" + header2;
    if Shifted(url1, header1, url2, header2) {
      assert url2 == url1 + ":" + url2[|url1| + 1..];
      assert s == t;
    }
    if s == t {
      assert url1 == s[..|url1|] && url2 == t[..|url2|];
      assert header1 == s[|url1| + 1..];
      if |url1| < |url2| {
        assert url2[|url1|] == s[|url1|];
        assert s[|url1| + 1..] == url2[|url1| + 1..] + ":" + header2;
      } else {
        assert header2 == t[|url2| + 1..];
      }
    }
  }

  /** Two requests share a key exactly when they agree on user, method, URL and header, or when one
      URL continues the other with a colon that the headers shift across. */
  lemma KeysAgreeExactly(user1: string, verb1: string, url1: string, header1: string,
                         user2: string, verb2: string, url2: string, header2: string)
    requires NoColon(verb1) && NoColon(verb2)
    ensures BuildKey(user1, verb1, url1, header1) == BuildKey(user2, verb2, url2, header2) <==>
            (user1 == user2 && verb1 == verb2
             && ((url1 == url2 && header1 == header2) || Shifted(url1, header1, url2, header2)
                  || Shifted(url2, header2, url1, header1)))
  {
    assert Scope(verb1, url1, header1) == verb1 + ":" + (url1 + ":" + header1);
    assert Scope(verb2, url2, header2) == verb2 + ":" + (url2 + ":" + header2);
    if Scope(verb1, url1, header1) == Scope(verb2, url2, header2) {
      SplitAtFirst(verb1, url1 + ":" + header1, verb2, url2 + ":" + header2);
    }
    if |url1| <= |url2| {
      TailsMeet(url1, header1, url2, header2);
    } else {
      TailsMeet(url2, header2, url1, header1);
    }
  }

  /** Such a pair exists: a colon in a query string. */
  lemma ColonCollision()
    ensures BuildKey("u", "PATCH", "/cancel?a", "b:k") == BuildKey("u", "PATCH", "/cancel?a:b", "k")
  {
    assert "b:k" == "b" + ":" + "k";
    KeysAgreeExactly("u", "PATCH", "/cancel?a", "b:k", "u", "PATCH", "/cancel?a:b", "k");
  }
}
