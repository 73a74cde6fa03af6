/** The promises of the client machine, over every run and every behaviour of the server. */
module ClientTheorems {
  import opened Options
  import opened Client
  import opened ClientProofs

  // ---------------------------------------------------------------- the refresh queue

  /** No waiter is lost: a non-empty queue has a refresh behind it, the refresh has exactly one
      leader, the queue lists exactly the waiting calls, and lists each once. */
  lemma QueueIsServed(s: State)
    requires Reachable(s)
    ensures s.failedQueue != [] ==> s.isRefreshing
    ensures s.isRefreshing <==> exists r :: IsLeader(s, r)
    ensures forall r1, r2 :: IsLeader(s, r1) && IsLeader(s, r2) ==> r1 == r2
    ensures forall c: nat :: c in s.failedQueue <==> c < |s.calls| && s.calls[c].phase.Waiting?
    ensures forall i, j :: 0 <= i < j < |s.failedQueue| ==> s.failedQueue[i] != s.failedQueue[j]
  {
    ReachableInv(s);
    forall r | IsLeader(s, r) ensures s.isRefreshing {
      assert AppShape(s, r);
    }
    forall c: nat ensures c in s.failedQueue <==> c < |s.calls| && s.calls[c].phase.Waiting? {
      WaitersAreQueued(s, c);
    }
  }

  lemma WaitersAreQueued(s: State, c: nat)
    requires Shape(s)
    ensures c in s.failedQueue <==> c < |s.calls| && s.calls[c].phase.Waiting?
  {
    if c < s.n {
      assert AppShape(s, c);
    } else if c < |s.calls| {
      assert RefreshShape(s.calls[c]);
    }
  }

  /** The end of a cycle empties the queue: every waiter and the leader are resent if the refresh
      succeeded and rejected if it failed, nobody is left waiting or leading, no other call moves. */
  lemma CycleEndReleasesAll(s: State, r: nat)
    requires Reachable(s) && Enabled(s, EndCycle(r))
    ensures var s' := Step(s, EndCycle(r));
            && |s'.calls| == |s.calls| && !s'.isRefreshing && s'.failedQueue == []
            && (forall c: nat :: c < |s.calls| ==> Released(s, s', c, r))
  {
    ReachableInv(s);
    assert IsLeader(s, r) && AppShape(s, r);
    forall c: nat | c < |s.calls| ensures Released(s, Step(s, EndCycle(r)), c, r) {
      ReleaseOne(s, r, c);
    }
  }

  predicate Released(s: State, s': State, c: nat, r: nat)
    requires c < |s.calls| == |s'.calls| && s.n + r < |s.calls|
  {
    && !s'.calls[c].phase.Waiting? && !s'.calls[c].phase.Leading?
    && if s.calls[c].phase.Waiting? || c == r
       then s'.calls[c].phase == if s.calls[s.n + r].phase == Settled(Resolved) then Queued else Settled(Rejected)
       else s'.calls[c] == s.calls[c]
  }

  lemma ReleaseOne(s: State, r: nat, c: nat)
    requires Shape(s) && IsLeader(s, r) && Enabled(s, EndCycle(r)) && c < |s.calls|
    ensures Released(s, EndRefresh(s, r), c, r)
  {
    WaitersAreQueued(s, c);
    assert (s.failedQueue + [r])[|s.failedQueue|] == r;
    assert c in s.failedQueue + [r] <==> c in s.failedQueue || c == r;
    if c >= s.n {
      assert RefreshShape(s.calls[c]);
    } else if s.calls[c].phase.Leading? {
      assert IsLeader(s, c);
    }
  }

  /** At most one refresh call is under way, and it belongs to the leader. */
  lemma RefreshIsSingleFlight(s: State, r1: nat, r2: nat)
    requires Reachable(s) && r1 < s.n && r2 < s.n && s.n + r1 < |s.calls| && s.n + r2 < |s.calls|
    requires UnderWay(s.calls[s.n + r1]) && UnderWay(s.calls[s.n + r2])
    ensures r1 == r2 && IsLeader(s, r1)
  {
    ReachableInv(s);
    RefreshHasLeader(s, r1);
    RefreshHasLeader(s, r2);
  }

  lemma RefreshHasLeader(s: State, r: nat)
    requires Shape(s) && r < s.n && UnderWay(s.calls[s.n + r])
    ensures IsLeader(s, r)
  {
    assert AppShape(s, r);
  }

  predicate UnderWay(call: Call) {
    !call.phase.Idle? && !call.phase.Settled?
  }

  // ---------------------------------------------------------------- bounds

  /** N application requests run at most N refresh cycles. */
  lemma CyclesAtMostRequests(s: State)
    requires Reachable(s)
    ensures s.cycles <= s.n
  {
    ReachableInv(s);
  }

  /** Each of N application requests is sent at most N + 2 times, each refresh call at most twice. */
  lemma SendsAreBounded(s: State, c: nat)
    requires Reachable(s) && c < |s.calls|
    ensures |s.calls| == 2 * s.n
    ensures |s.calls[c].sent| <= if c < s.n then s.n + 2 else 2
  {
    ReachableInv(s);
    assert SendInv(s, c);
  }

  // ---------------------------------------------------------------- termination

  const ROUND := 12

  function Rank(phase: Phase): nat {
    match phase
    case Idle => 9
    case RetryWait(_) => 9
    case Queued => 8
    case NoToken => 5
    case TokenHeld(_) => 5
    case TokenWait(_) => 5
    case InFlight => 4
    case Leading => 3
    case Waiting => 2
    case Settled(_) => 0
  }

  function CyclesLeft(s: State): nat {
    if s.cycles <= s.n then s.n - s.cycles + Flag(s.isRefreshing) else 0
  }

  /** Work left in a call: its phase, plus a full round for every resend still allowed. */
  function WorkOf(call: Call, left: nat): nat {
    if call.phase.Settled? then 0 else ROUND * (1 - Flag(call.csrfRetry) + left) + Rank(call.phase)
  }

  function Work(s: State, c: nat): nat
    requires c < |s.calls|
  {
    WorkOf(s.calls[c], if c < s.n then CyclesLeft(s) else 0)
  }

  function CallWork(s: State, n: nat): nat
    requires n <= |s.calls|
  {
    if n == 0 then 0 else CallWork(s, n - 1) + Work(s, n - 1)
  }

  function FetchWork(fetches: seq<Fetch>): nat {
    if fetches == [] then 0
    else
      FetchWork(fetches[..|fetches| - 1])
        + match fetches[|fetches| - 1] { case Flying => 2 case Landed(_, _) => 1 case Done(_, _) => 0 }
  }

  function Measure(s: State): nat {
    CallWork(s, |s.calls|) + FetchWork(s.fetches)
  }

  lemma {:induction false} CallWorkDrop(s: State, s': State, n: nat, c: nat)
    requires n <= |s.calls| == |s'.calls| && c < n
    requires forall i :: 0 <= i < n ==> Work(s', i) <= Work(s, i)
    ensures CallWork(s', n) + Work(s, c) <= CallWork(s, n) + Work(s', c)
  {
    if c == n - 1 {
      CallWorkLe(s, s', n - 1);
    } else {
      CallWorkDrop(s, s', n - 1, c);
    }
  }

  lemma {:induction false} CallWorkLe(s: State, s': State, n: nat)
    requires n <= |s.calls| == |s'.calls|
    requires forall i :: 0 <= i < n ==> Work(s', i) <= Work(s, i)
    ensures CallWork(s', n) <= CallWork(s, n)
  {
    if n == 0 {
    } else {
      CallWorkLe(s, s', n - 1);
    }
  }

  lemma {:induction false} FetchWorkUpdate(fetches: seq<Fetch>, f: nat, fetch: Fetch)
    requires f < |fetches|
    requires (fetches[f].Flying? && fetch.Landed?) || (fetches[f].Landed? && fetch.Done?)
    ensures FetchWork(fetches[f := fetch]) == FetchWork(fetches) - 1
  {
    var k := |fetches| - 1;
    if f < k {
      FetchWorkUpdate(fetches[..k], f, fetch);
      assert fetches[f := fetch][..k] == fetches[..k][f := fetch];
    } else {
      assert fetches[f := fetch][..k] == fetches[..k];
    }
  }

  lemma FetchWorkAppend(fetches: seq<Fetch>)
    ensures FetchWork(fetches + [Flying]) == FetchWork(fetches) + 2
  {
    assert (fetches + [Flying])[..|fetches|] == fetches;
  }

  /** What a move costs the call that makes it; waiting for a CSRF fetch pays for the fetch. */
  lemma MoveWork(o: Call, n: Call, left: nat, left': nat)
    requires Move(o, n) && left' <= left && (Woken(o, n) ==> left' < left)
    ensures WorkOf(n, left') <= WorkOf(o, left)
    ensures o != n ==> WorkOf(n, left') < WorkOf(o, left)
    ensures o != n && (o.phase.Queued? || o.phase.InFlight?) && (n.phase.TokenWait? || n.phase.RetryWait?) ==>
      WorkOf(n, left') <= WorkOf(o, left) - 3
  {
  }

  lemma CyclesLeftDrops(s: State, s': State)
    requires Moves(s, s') && s.cycles <= s.n && s'.cycles <= s'.n
    ensures CyclesLeft(s') <= CyclesLeft(s)
    ensures s.isRefreshing && !s'.isRefreshing ==> CyclesLeft(s') < CyclesLeft(s)
  {
  }

  /** No call gains work in a step. */
  lemma WorkNeverGrows(s: State, s': State, c: nat)
    requires Moves(s, s') && s.cycles <= s.n && s'.cycles <= s'.n && c < |s.calls|
    requires c >= s.n ==> RefreshShape(s.calls[c])
    ensures Work(s', c) <= Work(s, c)
    ensures s'.calls[c] != s.calls[c] ==> Work(s', c) < Work(s, c)
    ensures (s'.calls[c] != s.calls[c] && (s.calls[c].phase.Queued? || s.calls[c].phase.InFlight?)
             && (s'.calls[c].phase.TokenWait? || s'.calls[c].phase.RetryWait?))
            ==> Work(s', c) <= Work(s, c) - 3
  {
    CyclesLeftDrops(s, s');
    assert Move(s.calls[c], s'.calls[c]);
    if c < s.n {
      MoveWork(s.calls[c], s'.calls[c], CyclesLeft(s), CyclesLeft(s'));
    } else {
      MoveWork(s.calls[c], s'.calls[c], 0, 0);
    }
  }

  /** Every enabled step uses up work. */
  lemma StepUsesWork(s: State, a: Action)
    requires Inv(s) && Enabled(s, a)
    ensures Measure(Step(s, a)) < Measure(s)
  {
    var s' := Step(s, a);
    StepMoves(s, a);
    StepInv(s, a);
    forall c: nat | c < |s.calls| ensures Work(s', c) <= Work(s, c) {
      WorkNeverGrows(s, s', c);
    }
    if a.FetchAnswer? || a.FetchFinally? {
      FetchWorkUpdate(s.fetches, a.f, s'.fetches[a.f]);
      CallWorkLe(s, s', |s.calls|);
    } else {
      var c := if a.Issue? || a.EndCycle? then a.r else a.c;
      CallStepTouches(s, a, c);
      WorkNeverGrows(s, s', c);
      CallWorkDrop(s, s', |s.calls|, c);
      if s'.fetches != s.fetches { FetchWorkAppend(s.fetches); }
    }
  }

  /** A step of a call changes that call; it starts a CSRF fetch only from the interceptors. */
  predicate Touches(s: State, s': State, c: nat) {
    && c < |s.calls| == |s'.calls| && s'.calls[c] != s.calls[c]
    && (s'.fetches == s.fetches ||
        (s'.fetches == s.fetches + [Flying] && (s.calls[c].phase.Queued? || s.calls[c].phase.InFlight?)
         && (s'.calls[c].phase.TokenWait? || s'.calls[c].phase.RetryWait?)))
  }

  lemma {:induction false} CallStepTouches(s: State, a: Action, c: nat)
    requires |s.calls| == 2 * s.n && Enabled(s, a) && !a.FetchAnswer? && !a.FetchFinally?
    requires c < s.n ==> AppShape(s, c)
    requires s.n <= c < 2 * s.n ==> RefreshShape(s.calls[c])
    requires c == if a.Issue? || a.EndCycle? then a.r else a.c
    ensures Touches(s, Step(s, a), c)
  {
    if a.EndCycle? {
      EndTouches(s, c);
    } else if a.Respond? {
      RespondTouches(s, c, a.answer);
    } else {
      SendTouches(s, a, c);
    }
  }

  lemma SendTouches(s: State, a: Action, c: nat)
    requires Enabled(s, a) && (a.Issue? || a.Intercept? || a.Dispatch? || a.ResumeRetry?)
    requires c == if a.Issue? then a.r else a.c
    ensures Touches(s, Step(s, a), c)
  {
  }

  lemma EndTouches(s: State, r: nat)
    requires Enabled(s, EndCycle(r))
    ensures EndRefresh(s, r).calls[r] != s.calls[r] && EndRefresh(s, r).fetches == s.fetches
  {
    assert (s.failedQueue + [r])[|s.failedQueue|] == r;
  }

  lemma RespondTouches(s0: State, c: nat, answer: Answer)
    requires |s0.calls| == 2 * s0.n && (c < s0.n ==> AppShape(s0, c))
    requires s0.n <= c < |s0.calls| ==> RefreshShape(s0.calls[c])
    requires Enabled(s0, Respond(c, answer))
    ensures var s' := RespondCall(s0, c, answer);
      c < |s'.calls| && s'.calls[c] != s0.calls[c] &&
      (s'.fetches == s0.fetches || (s'.fetches == s0.fetches + [Flying] && s'.calls[c].phase.RetryWait?))
  {
    var s := LogAnswer(s0, c, answer);
    var s' := RespondCall(s0, c, answer);
    assert |s'.calls[c].answers| == |s0.calls[c].answers| + 1;
  }

  lemma {:induction false} LiveRunUsesWork(configs: seq<Config>, acts: seq<Action>)
    requires Live(Init(configs), acts)
    ensures |acts| + Measure(Run(Init(configs), acts)) <= Measure(Init(configs))
    decreases |acts|
  {
    if acts == [] {
    } else {
      var before := acts[..|acts| - 1];
      LiveRunUsesWork(configs, before);
      RunInv(configs, before);
      StepUsesWork(Run(Init(configs), before), acts[|acts| - 1]);
    }
  }

  lemma {:induction false} InitWorkOf(configs: seq<Config>, c: nat)
    requires c < 2 * |configs|
    ensures Work(Init(configs), c) == ROUND + 9 + if c < |configs| then ROUND * |configs| else 0
  {
  }

  lemma {:induction false} OneMore(p: nat, n: nat)
    ensures p * (n + 1) == p * n + p
  {
  }

  /** `p` is what the cycles still to come may cost one application call. */
  lemma {:induction false} InitWork(configs: seq<Config>, n: nat, p: nat)
    requires n <= 2 * |configs| && p == ROUND * |configs|
    ensures CallWork(Init(configs), n) == 21 * n + p * if n <= |configs| then n else |configs|
  {
    if n == 0 {
    } else {
      InitWork(configs, n - 1, p);
      InitWorkOf(configs, n - 1);
      OneMore(p, n - 1);
    }
  }

  /** Termination with a bound: whatever the server answers, N requests take at most 12N^2 + 42N steps. */
  lemma RunsAreBounded(configs: seq<Config>, acts: seq<Action>)
    requires Live(Init(configs), acts)
    ensures |acts| <= 12 * |configs| * |configs| + 42 * |configs|
  {
    LiveRunUsesWork(configs, acts);
    InitWork(configs, 2 * |configs|, ROUND * |configs|);
  }

  /** A state in which some issued call is unsettled can take a step that issues nothing. */
  lemma UnsettledCallsProgress(s: State, c: nat) returns (a: Action)
    requires Reachable(s) && c < |s.calls| && UnderWay(s.calls[c])
    ensures Enabled(s, a) && !a.Issue?
  {
    ReachableInv(s);
    var phase := s.calls[c].phase;
    if phase.Waiting? {
      QueueIsServed(s);
      assert c in s.failedQueue;
      var r :| IsLeader(s, r);
      a := LeaderProgress(s, r);
    } else if phase.Leading? {
      assert c >= s.n ==> RefreshShape(s.calls[c]);
      a := LeaderProgress(s, c);
    } else {
      a := CallProgress(s, c);
    }
  }

  lemma CallProgress(s: State, c: nat) returns (a: Action)
    requires Inv(s) && c < |s.calls| && UnderWay(s.calls[c])
    requires !s.calls[c].phase.Waiting? && !s.calls[c].phase.Leading?
    ensures Enabled(s, a) && !a.Issue?
  {
    assert WaitShape(s, s.calls[c]);
    match s.calls[c].phase
    case Queued => a := Intercept(c);
    case InFlight => a := Respond(c, Ok);
    case TokenWait(f) => a := if FetchDone(s, f) then Dispatch(c, "") else FetchProgress(s, f);
    case RetryWait(f) => a := if FetchDone(s, f) then ResumeRetry(c) else FetchProgress(s, f);
    case _ => a := Dispatch(c, "");
  }

  function FetchProgress(s: State, f: nat): Action
    requires f < |s.fetches|
  {
    if s.fetches[f].Flying? then FetchAnswer(f, true, None) else FetchFinally(f)
  }

  lemma LeaderProgress(s: State, r: nat) returns (a: Action)
    requires Inv(s) && IsLeader(s, r)
    ensures Enabled(s, a) && !a.Issue?
  {
    assert AppShape(s, r);
    assert RefreshShape(s.calls[s.n + r]);
    if s.calls[s.n + r].phase.Settled? {
      a := EndCycle(r);
    } else {
      a := CallProgress(s, s.n + r);
    }
  }

  // ---------------------------------------------------------------- one client call, at most one execution

  /** What one attempt meets on an unsafe route: the CSRF check, then authentication, then the
      controller behind the idempotency middleware; the answer may get lost. */
  datatype Pass = Pass(csrfOk: bool, authOk: bool, controllerOk: bool, lost: bool)

  predicate ReachesController(pass: Pass) {
    pass.csrfOk && pass.authOk
  }

  function ServerAnswer(pass: Pass): Answer {
    if pass.lost then OtherFailure
    else if !pass.csrfOk then CsrfForbidden
    else if !pass.authOk then Unauthorized
    else if pass.controllerOk then Ok
    else OtherFailure
  }

  /** Attempts of a call that may have reached the controller: answered otherwise than by a
      refusal, or still unanswered. */
  function PossibleExecutions(call: Call): nat {
    Executed(call.answers) + Flag(call.phase.InFlight?)
  }

  function Executed(answers: seq<Answer>): nat {
    if answers == [] then 0
    else Executed(answers[..|answers| - 1]) + Flag(!Refused(answers[|answers| - 1]))
  }

  lemma {:induction false} AllRefused(answers: seq<Answer>)
    requires forall i :: 0 <= i < |answers| ==> Refused(answers[i])
    ensures Executed(answers) == 0
  {
    if answers == [] {
    } else {
      AllRefused(answers[..|answers| - 1]);
    }
  }

  /** One client call runs its controller at most once, however often it is resent, and all its
      attempts carry the same Idempotency-Key; a mutation on the list always carries one. */
  lemma AtMostOneExecution(s: State, c: nat)
    requires Reachable(s) && c < |s.calls|
    ensures PossibleExecutions(s.calls[c]) <= 1
    ensures forall i, j :: 0 <= i < |s.calls[c].sent| && 0 <= j < |s.calls[c].sent| ==>
              s.calls[c].sent[i].key == s.calls[c].sent[j].key
    ensures forall i :: 0 <= i < |s.calls[c].sent| ==>
      (s.calls[c].sent[i].key.Some? <==> s.calls[c].config.needsToken && s.calls[c].config.needsKey)
    ensures forall i :: 0 <= i < |s.calls[c].answers| - 1 ==> Refused(s.calls[c].answers[i])
  {
    ReachableInv(s);
    var call := s.calls[c];
    assert LogInv(call);
    if call.answers != [] {
      AllRefused(call.answers[..|call.answers| - 1]);
    }
  }

  /** End to end: of all attempts of one client call, at most the last one reaches the controller, and
      then none is still under way; so one call changes its shipment or payment at most once. */
  lemma ControllerRunsAtMostOnce(s: State, c: nat, passes: seq<Pass>, i: nat)
    requires Reachable(s) && c < |s.calls| && i < |passes| == |s.calls[c].answers|
    requires forall j :: 0 <= j < |passes| ==> s.calls[c].answers[j] == ServerAnswer(passes[j])
    requires ReachesController(passes[i])
    ensures i == |passes| - 1 && !s.calls[c].phase.InFlight?
  {
    AtMostOneExecution(s, c);
    var answers := s.calls[c].answers;
    assert !Refused(answers[i]);
    assert Executed(answers) >= 1;
  }

  /** The caller is told of success exactly when its last attempt succeeded. */
  lemma ResolvedMeansSucceeded(s: State, c: nat)
    requires Reachable(s) && c < |s.calls| && s.calls[c].phase.Settled?
    ensures s.calls[c].phase.verdict.Resolved? <==>
            s.calls[c].answers != [] && s.calls[c].answers[|s.calls[c].answers| - 1].Ok?
  {
    ReachableInv(s);
    assert LogInv(s.calls[c]);
  }
}
