/** What every run of the client machine keeps: the refresh queue, the bounds, the attempt log. */
module ClientProofs {
  import opened Options
  import opened Client

  // ---------------------------------------------------------------- shape of reachable states

  predicate IsLeader(s: State, r: nat) {
    r < s.n && r < |s.calls| && s.calls[r].phase.Leading?
  }

  /** An application call: what its phase and flags say about the queue and its refresh call. */
  predicate AppShape(s: State, r: nat)
    requires |s.calls| == 2 * s.n && r < s.n
  {
    var call := s.calls[r];
    && (call.phase.Waiting? ==> r in s.failedQueue)
    && (call.phase.Leading? ==> call.retry && s.isRefreshing)
    && (call.retry <==> !s.calls[s.n + r].phase.Idle?)
    && (call.retry && !call.phase.Leading? ==> s.calls[s.n + r].phase.Settled?)
  }

  predicate RefreshShape(call: Call) {
    call.config == REFRESH_CONFIG && !call.retry && !call.phase.Waiting? && !call.phase.Leading?
  }

  predicate WaitShape(s: State, call: Call) {
    && (call.phase.TokenWait? ==> call.phase.fetch < |s.fetches|)
    && (call.phase.RetryWait? ==> call.phase.fetch < |s.fetches|)
  }

  predicate QueueShape(s: State)
    requires |s.calls| == 2 * s.n
  {
    && (forall i :: 0 <= i < |s.failedQueue| ==> s.failedQueue[i] < s.n && s.calls[s.failedQueue[i]].phase.Waiting?)
    && (forall i, j :: 0 <= i < j < |s.failedQueue| ==> s.failedQueue[i] != s.failedQueue[j])
    && (s.failedQueue != [] ==> s.isRefreshing)
  }

  predicate FetchShape(s: State) {
    && (s.csrfPromise.Some? ==> s.csrfPromise.value < |s.fetches| && !s.fetches[s.csrfPromise.value].Done?)
    && (forall f :: 0 <= f < |s.fetches| && !s.fetches[f].Done? ==> s.csrfPromise == Some(f))
  }

  ghost predicate Shape(s: State) {
    && |s.calls| == 2 * s.n
    && (forall r :: 0 <= r < s.n ==> AppShape(s, r))
    && (forall c :: s.n <= c < 2 * s.n ==> RefreshShape(s.calls[c]))
    && (forall c :: 0 <= c < 2 * s.n ==> WaitShape(s, s.calls[c]))
    && QueueShape(s)
    && FetchShape(s)
    && (s.isRefreshing ==> exists r :: IsLeader(s, r))
    && (forall r1, r2 :: IsLeader(s, r1) && IsLeader(s, r2) ==> r1 == r2)
  }

  lemma InitShape(configs: seq<Config>)
    ensures Shape(Init(configs))
  {
    var s := Init(configs);
    forall r: nat | r < s.n ensures AppShape(s, r) {}
    forall c | s.n <= c < 2 * s.n ensures RefreshShape(s.calls[c]) {}
  }

  lemma StepShape(s: State, a: Action)
    requires Shape(s)
    ensures Shape(Step(s, a))
  {
    if Enabled(s, a) {
      match a
      case Issue(r) => PhaseStepShape(s, r, Queued);
      case Intercept(c) => InterceptShape(s, c);
      case Dispatch(c, k) => DispatchShape(s, c, k);
      case Respond(c, answer) => RespondShape(s, c, answer);
      case ResumeRetry(c) =>
        PhaseStepShape(s, c, if s.fetches[s.calls[c].phase.fetch].ok then Queued else Settled(Rejected));
      case FetchAnswer(f, ok, token) => FetchStepShape(s, a);
      case FetchFinally(f) => FetchStepShape(s, a);
      case EndCycle(r) => EndCycleShape(s, r);
    }
  }

  /** A call changes locally: its phase is neither entering nor leaving the refresh queue. */
  predicate LocalChange(s: State, c: nat, call: Call)
    requires |s.calls| == 2 * s.n && c < 2 * s.n
  {
    && call.config == s.calls[c].config && call.retry == s.calls[c].retry
    && !call.phase.Waiting? && !call.phase.Leading? && !call.phase.Idle?
    && !s.calls[c].phase.Waiting? && !s.calls[c].phase.Leading? && !s.calls[c].phase.Settled?
    && (c >= s.n ==> !s.calls[c].phase.Idle?)
    && WaitShape(s, call)
  }

  lemma LocalShape(s: State, c: nat, call: Call)
    requires Shape(s) && c < 2 * s.n && LocalChange(s, c, call)
    ensures Shape(SetCall(s, c, call))
  {
    var s' := SetCall(s, c, call);
    forall r: nat | r < s.n ensures AppShape(s', r) {
      assert AppShape(s, r);
    }
    forall r | IsLeader(s', r) ensures IsLeader(s, r) {}
    if s.isRefreshing {
      var r :| IsLeader(s, r);
      assert IsLeader(s', r);
    }
  }

  lemma PhaseStepShape(s: State, c: nat, phase: Phase)
    requires Shape(s) && c < 2 * s.n && LocalChange(s, c, s.calls[c].(phase := phase))
    ensures Shape(SetPhase(s, c, phase))
  {
    LocalShape(s, c, s.calls[c].(phase := phase));
  }

  lemma EnsureShape(s: State)
    requires Shape(s)
    ensures Shape(EnsureToken(s).0)
    ensures EnsureToken(s).1.Wait? ==> EnsureToken(s).1.fetch < |EnsureToken(s).0.fetches|
  {
    var s' := EnsureToken(s).0;
    forall r: nat | r < s.n ensures AppShape(s', r) {
      assert AppShape(s, r);
    }
    if s.isRefreshing {
      var r :| IsLeader(s, r);
      assert IsLeader(s', r);
    }
    forall r | IsLeader(s', r) ensures IsLeader(s, r) {}
  }

  lemma InterceptShape(s: State, c: nat)
    requires Shape(s) && Enabled(s, Intercept(c))
    ensures Shape(InterceptCall(s, c))
  {
    if s.calls[c].config.needsToken {
      EnsureShape(s);
      var (s1, e) := EnsureToken(s);
      PhaseStepShape(s1, c, if e.Have? then TokenHeld(e.token) else TokenWait(e.fetch));
    } else {
      PhaseStepShape(s, c, NoToken);
    }
  }

  /** Dispatching changes one call only: it is sent, or it is rejected because its token did not come. */
  lemma {:induction false} DispatchFrame(s: State, c: nat, k: Key)
    requires Enabled(s, Dispatch(c, k))
    ensures var s' := DispatchCall(s, c, k);
            && |s'.calls| == |s.calls| && s' == SetCall(s, c, s'.calls[c])
            && (s'.calls[c] == s.calls[c].(phase := Settled(Rejected))
                || exists token :: s'.calls[c] == Send(s.calls[c], token, k))
            && (s'.calls[c].phase.Settled? ==> s.calls[c].phase.TokenWait?)
  {
    var o := s.calls[c];
    match o.phase
    case NoToken => assert DispatchCall(s, c, k).calls[c] == Send(o, None, k);
    case TokenHeld(t) => assert DispatchCall(s, c, k).calls[c] == Send(o, Some(t), k);
    case TokenWait(f) => assert s.fetches[f].ok ==> DispatchCall(s, c, k).calls[c] == Send(o, s.fetches[f].token, k);
    case _ =>
  }

  lemma {:induction false} DispatchShape(s: State, c: nat, k: Key)
    requires Shape(s) && Enabled(s, Dispatch(c, k))
    ensures Shape(DispatchCall(s, c, k))
  {
    DispatchFrame(s, c, k);
    var call := DispatchCall(s, c, k).calls[c];
    SentIsLocal(s, c, call, k);
    LocalShape(s, c, call);
  }

  lemma {:induction false} SentIsLocal(s: State, c: nat, call: Call, k: Key)
    requires |s.calls| == 2 * s.n && Enabled(s, Dispatch(c, k))
    requires call == s.calls[c].(phase := Settled(Rejected)) || exists token :: call == Send(s.calls[c], token, k)
    ensures LocalChange(s, c, call)
  {
  }

  lemma FlagShape(s: State, s': State)
    requires Shape(s) && s' == s.(csrfToken := s'.csrfToken, redirected := s'.redirected)
    ensures Shape(s')
  {
    forall r: nat | r < s.n ensures AppShape(s', r) {
      assert AppShape(s, r);
    }
    forall r ensures IsLeader(s', r) <==> IsLeader(s, r) {}
  }

  lemma RespondShape(s0: State, c: nat, answer: Answer)
    requires Shape(s0) && Enabled(s0, Respond(c, answer))
    ensures Shape(RespondCall(s0, c, answer))
  {
    LocalShape(s0, c, s0.calls[c].(answers := s0.calls[c].answers + [answer]));
    var s := LogAnswer(s0, c, answer);
    match React(s.calls[c], answer, s.isRefreshing)
    case Finish(verdict, redirect) =>
      PhaseStepShape(s, c, Settled(verdict));
      FlagShape(SetPhase(s, c, Settled(verdict)), FinishCall(s, c, verdict, redirect));
    case RetryCsrf => RetryShape(s, c);
    case Join => JoinShape(s, c);
    case Lead => LeadShape(s, c);
  }

  lemma RetryShape(s: State, c: nat)
    requires Shape(s) && c < 2 * s.n && s.calls[c].phase.InFlight?
    ensures Shape(RetryWithFreshToken(s, c))
  {
    var cleared := s.(csrfToken := None);
    FlagShape(s, cleared);
    EnsureShape(cleared);
    var (s1, e) := EnsureToken(cleared);
    LocalShape(s1, c, s.calls[c].(csrfRetry := true, phase := RetryWait(e.fetch)));
  }

  /** A 401 during a refresh: the call joins the queue. */
  lemma JoinShape(s: State, c: nat)
    requires Shape(s) && c < s.n && s.calls[c].phase.InFlight? && s.isRefreshing
    ensures Shape(JoinQueue(s, c))
  {
    var s' := JoinQueue(s, c);
    forall r: nat | r < s.n ensures AppShape(s', r) {
      assert AppShape(s, r);
      assert s'.failedQueue[|s.failedQueue|] == c;
      if r in s.failedQueue {
        var i :| 0 <= i < |s.failedQueue| && s.failedQueue[i] == r;
        assert s'.failedQueue[i] == r;
      }
    }
    var r :| IsLeader(s, r);
    assert IsLeader(s', r);
    forall r' | IsLeader(s', r') ensures IsLeader(s, r') {}
  }

  /** A 401 outside a refresh: the call becomes the leader and issues its refresh call. */
  lemma LeadShape(s: State, c: nat)
    requires Shape(s) && c < s.n && s.calls[c].phase.InFlight? && !s.calls[c].retry && !s.isRefreshing
    ensures Shape(StartRefresh(s, c))
  {
    var s' := StartRefresh(s, c);
    forall r: nat | r < s.n ensures AppShape(s', r) {
      assert AppShape(s, r);
    }
    assert AppShape(s, c);
    assert IsLeader(s', c);
    forall r | IsLeader(s', r) ensures r == c {
      assert AppShape(s, r);
    }
  }

  lemma FetchStepShape(s: State, a: Action)
    requires Shape(s) && Enabled(s, a) && (a.FetchAnswer? || a.FetchFinally?)
    ensures Shape(Step(s, a))
  {
    var s' := Step(s, a);
    forall r: nat | r < s.n ensures AppShape(s', r) {
      assert AppShape(s, r);
    }
    forall r ensures IsLeader(s', r) <==> IsLeader(s, r) {}
  }

  lemma {:induction false} EndCycleShape(s: State, r: nat)
    requires Shape(s) && Enabled(s, EndCycle(r))
    ensures Shape(EndRefresh(s, r))
  {
    assert AppShape(s, r) && IsLeader(s, r);
    var s' := EndRefresh(s, r);
    forall q: nat | q < s.n ensures AppShape(s', q) && !IsLeader(s', q) {
      EndCycleApp(s, r, q);
    }
    forall c: nat | c < 2 * s.n ensures WaitShape(s', s'.calls[c]) && (c >= s.n ==> RefreshShape(s'.calls[c])) {
      EndCycleCall(s, r, c);
    }
  }

  lemma {:induction false} EndCycleCall(s: State, r: nat, c: nat)
    requires |s.calls| == 2 * s.n && r < s.n && c < 2 * s.n && QueueShape(s) && WaitShape(s, s.calls[c])
    requires c >= s.n ==> RefreshShape(s.calls[c])
    ensures WaitShape(EndRefresh(s, r), EndRefresh(s, r).calls[c])
    ensures c >= s.n ==> RefreshShape(EndRefresh(s, r).calls[c])
  {
    var who := s.failedQueue + [r];
    assert forall i :: 0 <= i < |who| ==> who[i] < s.n;
  }

  lemma {:induction false} EndCycleApp(s: State, r: nat, q: nat)
    requires |s.calls| == 2 * s.n && r < s.n && q < s.n && QueueShape(s) && AppShape(s, q) && AppShape(s, r)
    requires IsLeader(s, r) && (IsLeader(s, q) ==> q == r) && s.calls[s.n + r].phase.Settled?
    requires RefreshShape(s.calls[s.n + q])
    ensures AppShape(EndRefresh(s, r), q) && !IsLeader(EndRefresh(s, r), q)
  {
    var who := s.failedQueue + [r];
    assert who[|s.failedQueue|] == r;
    assert forall c :: c in who <==> c in s.failedQueue || c == r;
    assert s.n + q !in who;
    assert EndRefresh(s, r).calls[s.n + q] == s.calls[s.n + q];
  }

  // ---------------------------------------------------------------- how one step moves one call

  predicate ReadyToSend(phase: Phase) {
    phase.NoToken? || phase.TokenHeld? || phase.TokenWait?
  }

  predicate Prepared(o: Call, n: Call) {
    || (o.phase.Idle? && n == o.(phase := Queued))
    || (o.phase.Queued? && n == o.(phase := n.phase) && ReadyToSend(n.phase))
    || (o.phase.RetryWait? && n == o.(phase := Queued))
  }

  /** The CSRF fetch it waited for failed. */
  predicate Dropped(o: Call, n: Call) {
    (o.phase.TokenWait? || o.phase.RetryWait?) && n == o.(phase := Settled(Rejected))
  }

  predicate Transmitted(o: Call, n: Call) {
    && ReadyToSend(o.phase) && |n.sent| == |o.sent| + 1 && n.sent[..|o.sent|] == o.sent
    && n == o.(phase := InFlight, key := n.key, sent := n.sent) && n.sent[|o.sent|].key == n.key
    && (if o.config.needsToken && o.config.needsKey
        then n.key.Some? && (o.key.Some? ==> n.key == o.key)
        else n.key == o.key)
  }

  predicate Answered(o: Call, n: Call) {
    && o.phase.InFlight? && |n.answers| == |o.answers| + 1
    && var answer := n.answers[|o.answers|];
       var l := o.(answers := o.answers + [answer]);
       || (n == l.(phase := Settled(Resolved)) && answer.Ok?)
       || (n == l.(phase := Settled(Rejected)) && !answer.Ok?)
       || (n == l.(csrfRetry := true, phase := n.phase) && n.phase.RetryWait? && answer.CsrfForbidden? && !o.csrfRetry)
       || (n == l.(phase := Waiting) && answer.Unauthorized?)
       || (n == l.(retry := true, phase := Leading) && !o.retry && answer.Unauthorized?)
  }

  predicate Woken(o: Call, n: Call) {
    (o.phase.Waiting? || o.phase.Leading?) && (n == Wake(o, true) || n == Wake(o, false))
  }

  predicate Move(o: Call, n: Call) {
    o == n || Prepared(o, n) || Dropped(o, n) || Transmitted(o, n) || Answered(o, n) || Woken(o, n)
  }

  /** The frame of one step: every call makes at most one move, calls are woken exactly when a
      cycle ends, and one call sets `retry` exactly when a cycle begins. */
  ghost predicate Moves(s: State, s': State) {
    && |s.calls| == 2 * s.n
    && s'.n == s.n && |s'.calls| == |s.calls|
    && (forall c :: 0 <= c < |s.calls| ==> Move(s.calls[c], s'.calls[c]))
    && (forall c :: 0 <= c < |s.calls| && Woken(s.calls[c], s'.calls[c]) ==> s.isRefreshing && !s'.isRefreshing)
    && ((s'.cycles == s.cycles && (s'.isRefreshing ==> s.isRefreshing)
         && (forall c :: 0 <= c < |s.calls| ==> s'.calls[c].retry == s.calls[c].retry))
        || (s'.cycles == s.cycles + 1 && !s.isRefreshing && s'.isRefreshing && Begins(s, s')))
  }

  ghost predicate Begins(s: State, s': State)
    requires |s'.calls| == |s.calls| == 2 * s.n
  {
    exists r :: 0 <= r < s.n && !s.calls[r].retry && s'.calls[r].retry
      && forall c :: 0 <= c < |s.calls| && c != r ==> s'.calls[c].retry == s.calls[c].retry
  }

  /** A step that touches one call, and neither begins nor ends a cycle. */
  lemma OneMove(s: State, s': State, c: nat)
    requires |s.calls| == 2 * s.n && c < 2 * s.n && s'.n == s.n
    requires |s'.calls| == |s.calls| && s'.calls == s.calls[c := s'.calls[c]]
    requires Move(s.calls[c], s'.calls[c]) && !Woken(s.calls[c], s'.calls[c]) && s'.calls[c].retry == s.calls[c].retry
    requires s'.cycles == s.cycles && s'.isRefreshing == s.isRefreshing
    ensures Moves(s, s')
  {
    forall i | 0 <= i < |s.calls| ensures Move(s.calls[i], s'.calls[i]) && !Woken(s.calls[i], s'.calls[i]) {}
  }

  lemma NoMove(s: State, s': State)
    requires |s.calls| == 2 * s.n && s'.calls == s.calls && s'.n == s.n
    requires s'.cycles == s.cycles && s'.isRefreshing == s.isRefreshing
    ensures Moves(s, s')
  {
  }

  lemma StepMoves(s: State, a: Action)
    requires Shape(s)
    ensures Moves(s, Step(s, a))
  {
    var s' := Step(s, a);
    if !Enabled(s, a) || a.FetchAnswer? || a.FetchFinally? {
      NoMove(s, s');
    } else if a.EndCycle? {
      EndCycleMoves(s, a.r);
    } else if a.Respond? {
      RespondMoves(s, a.c, a.answer);
    } else {
      SendingMoves(s, a);
    }
  }

  /** The steps on the way from issuing a call to sending it. */
  lemma {:induction false} SendingMoves(s: State, a: Action)
    requires |s.calls| == 2 * s.n && Enabled(s, a)
    requires a.Issue? || a.Intercept? || a.Dispatch? || a.ResumeRetry?
    ensures Moves(s, Step(s, a))
  {
    match a
    case Issue(r) => IssueMoves(s, r);
    case Intercept(c) => InterceptMoves(s, c);
    case Dispatch(c, k) => DispatchMoves(s, c, k);
    case ResumeRetry(c) => ResumeMoves(s, c);
  }

  lemma {:induction false} IssueMoves(s: State, r: nat)
    requires |s.calls| == 2 * s.n && Enabled(s, Issue(r))
    ensures Moves(s, Step(s, Issue(r)))
  {
    var s' := SetPhase(s, r, Queued);
    assert Prepared(s.calls[r], s'.calls[r]);
    OneMove(s, s', r);
  }

  lemma {:induction false} InterceptMoves(s: State, c: nat)
    requires |s.calls| == 2 * s.n && Enabled(s, Intercept(c))
    ensures Moves(s, Step(s, Intercept(c)))
  {
    InterceptFrame(s, c);
    OneMove(s, InterceptCall(s, c), c);
  }

  lemma {:induction false} InterceptFrame(s: State, c: nat)
    requires c < |s.calls| && s.calls[c].phase.Queued?
    ensures var s' := InterceptCall(s, c);
            && s'.n == s.n && |s'.calls| == |s.calls| && s'.calls == s.calls[c := s'.calls[c]]
            && s'.cycles == s.cycles && s'.isRefreshing == s.isRefreshing
            && Prepared(s.calls[c], s'.calls[c]) && !Woken(s.calls[c], s'.calls[c])
            && s'.calls[c].retry == s.calls[c].retry
  {
  }

  lemma {:induction false} ResumeMoves(s: State, c: nat)
    requires |s.calls| == 2 * s.n && Enabled(s, ResumeRetry(c))
    ensures Moves(s, Step(s, ResumeRetry(c)))
  {
    var s' := SetPhase(s, c, if s.fetches[s.calls[c].phase.fetch].ok then Queued else Settled(Rejected));
    assert Prepared(s.calls[c], s'.calls[c]) || Dropped(s.calls[c], s'.calls[c]);
    OneMove(s, s', c);
  }

  lemma {:induction false} SendTransmits(o: Call, token: Option<Token>, k: Key)
    requires ReadyToSend(o.phase)
    ensures Transmitted(o, Send(o, token, k))
  {
    assert Send(o, token, k).sent[..|o.sent|] == o.sent;
  }

  lemma {:induction false} DispatchMoves(s: State, c: nat, k: Key)
    requires |s.calls| == 2 * s.n && Enabled(s, Dispatch(c, k))
    ensures Moves(s, DispatchCall(s, c, k))
  {
    DispatchFrame(s, c, k);
    var n := DispatchCall(s, c, k).calls[c];
    DispatchedCall(s.calls[c], n, k);
    CallMoves(s, c, n);
  }

  lemma {:induction false} DispatchedCall(o: Call, n: Call, k: Key)
    requires ReadyToSend(o.phase) && (n.phase.Settled? ==> o.phase.TokenWait?)
    requires n == o.(phase := Settled(Rejected)) || exists token :: n == Send(o, token, k)
    ensures Move(o, n) && !Woken(o, n) && n.retry == o.retry
  {
    if token :| n == Send(o, token, k) { SendTransmits(o, token, k); } else { assert Dropped(o, n); }
  }

  lemma {:induction false} CallMoves(s: State, c: nat, n: Call)
    requires |s.calls| == 2 * s.n && c < 2 * s.n
    requires Move(s.calls[c], n) && !Woken(s.calls[c], n) && n.retry == s.calls[c].retry
    ensures Moves(s, SetCall(s, c, n))
  {
    OneMove(s, SetCall(s, c, n), c);
  }

  lemma RespondMoves(s0: State, c: nat, answer: Answer)
    requires Shape(s0) && Enabled(s0, Respond(c, answer))
    ensures Moves(s0, RespondCall(s0, c, answer))
  {
    assert if c < s0.n then AppShape(s0, c) else RefreshShape(s0.calls[c]);
    if React(s0.calls[c], answer, s0.isRefreshing).Lead? {
      RespondLeads(s0, c, answer);
      LeadMoves(s0, RespondCall(s0, c, answer), c);
    } else {
      RespondLocally(s0, c, answer);
      OneMove(s0, RespondCall(s0, c, answer), c);
    }
  }

  /** An answer that starts no refresh moves only its own call. */
  predicate LocalAnswer(s0: State, s': State, c: nat)
    requires c < |s0.calls|
  {
    && s'.n == s0.n && |s'.calls| == |s0.calls| && s'.calls == s0.calls[c := s'.calls[c]]
    && Answered(s0.calls[c], s'.calls[c]) && s'.calls[c].retry == s0.calls[c].retry
    && s'.cycles == s0.cycles && s'.isRefreshing == s0.isRefreshing
  }

  lemma {:induction false} RespondLocally(s0: State, c: nat, answer: Answer)
    requires c < |s0.calls| && s0.calls[c].phase.InFlight? && !React(s0.calls[c], answer, s0.isRefreshing).Lead?
    ensures LocalAnswer(s0, RespondCall(s0, c, answer), c)
  {
    var call := s0.calls[c].(answers := s0.calls[c].answers + [answer]);
    match React(call, answer, s0.isRefreshing)
    case Finish(_, _) => FinishIsLocal(s0, c, answer);
    case RetryCsrf => RetryIsLocal(s0, c, answer);
    case Join => JoinIsLocal(s0, c, answer);
    case Lead =>
  }

  lemma {:induction false} FinishIsLocal(s0: State, c: nat, answer: Answer)
    requires c < |s0.calls| && s0.calls[c].phase.InFlight? && React(s0.calls[c], answer, s0.isRefreshing).Finish?
    ensures LocalAnswer(s0, RespondCall(s0, c, answer), c)
  {
    var r := React(s0.calls[c], answer, s0.isRefreshing);
    assert RespondCall(s0, c, answer) == FinishCall(LogAnswer(s0, c, answer), c, r.verdict, r.redirect);
  }

  lemma {:induction false} RetryIsLocal(s0: State, c: nat, answer: Answer)
    requires c < |s0.calls| && s0.calls[c].phase.InFlight? && React(s0.calls[c], answer, s0.isRefreshing).RetryCsrf?
    ensures LocalAnswer(s0, RespondCall(s0, c, answer), c)
  {
    assert RespondCall(s0, c, answer) == RetryWithFreshToken(LogAnswer(s0, c, answer), c);
  }

  lemma {:induction false} JoinIsLocal(s0: State, c: nat, answer: Answer)
    requires c < |s0.calls| && s0.calls[c].phase.InFlight? && React(s0.calls[c], answer, s0.isRefreshing).Join?
    ensures LocalAnswer(s0, RespondCall(s0, c, answer), c)
  {
    assert RespondCall(s0, c, answer) == JoinQueue(LogAnswer(s0, c, answer), c);
  }

  /** An answer that starts a refresh moves its own call and the refresh call it issues. */
  lemma RespondLeads(s0: State, c: nat, answer: Answer)
    requires |s0.calls| == 2 * s0.n && c < |s0.calls| && s0.calls[c].phase.InFlight?
    requires if c < s0.n then AppShape(s0, c) else RefreshShape(s0.calls[c])
    requires React(s0.calls[c], answer, s0.isRefreshing).Lead?
    ensures var s' := RespondCall(s0, c, answer);
            && c < s0.n && s'.n == s0.n && |s'.calls| == |s0.calls|
            && s'.calls == s0.calls[c := s'.calls[c]][s0.n + c := s'.calls[s0.n + c]]
            && Answered(s0.calls[c], s'.calls[c]) && Prepared(s0.calls[s0.n + c], s'.calls[s0.n + c])
            && !s0.calls[c].retry && s'.calls[c].retry && s'.calls[s0.n + c].retry == s0.calls[s0.n + c].retry
            && s'.cycles == s0.cycles + 1 && s'.isRefreshing && !s0.isRefreshing
  {
    var s := LogAnswer(s0, c, answer);
    assert RespondCall(s0, c, answer) == StartRefresh(s, c);
  }

  lemma LeadMoves(s: State, s': State, r: nat)
    requires |s.calls| == 2 * s.n && r < s.n && s'.n == s.n && |s'.calls| == |s.calls|
    requires s'.calls == s.calls[r := s'.calls[r]][s.n + r := s'.calls[s.n + r]]
    requires Answered(s.calls[r], s'.calls[r]) && Prepared(s.calls[s.n + r], s'.calls[s.n + r])
    requires !s.calls[r].retry && s'.calls[r].retry && s.calls[s.n + r].retry == s'.calls[s.n + r].retry
    requires s'.cycles == s.cycles + 1 && s'.isRefreshing && !s.isRefreshing
    ensures Moves(s, s')
  {
    forall i | 0 <= i < |s.calls|
      ensures Move(s.calls[i], s'.calls[i]) && !Woken(s.calls[i], s'.calls[i])
      ensures i != r ==> s'.calls[i].retry == s.calls[i].retry
    {}
    assert Begins(s, s');
  }

  lemma EndCycleMoves(s: State, r: nat)
    requires Shape(s) && Enabled(s, EndCycle(r))
    ensures Moves(s, EndRefresh(s, r))
  {
    assert AppShape(s, r);
    var s' := EndRefresh(s, r);
    forall c | c in s.failedQueue + [r] ensures c < s.n && (s.calls[c].phase.Waiting? || s.calls[c].phase.Leading?) {}
    forall c | 0 <= c < |s.calls| ensures Move(s.calls[c], s'.calls[c]) {}
  }

  // ---------------------------------------------------------------- refresh cycles

  /** How many of the first `n` calls have not led a cycle yet. */
  function Unset(calls: seq<Call>, n: nat): nat
    requires n <= |calls|
  {
    if n == 0 then 0 else Unset(calls, n - 1) + (if calls[n - 1].retry then 0 else 1)
  }

  lemma {:induction false} UnsetSame(calls: seq<Call>, calls': seq<Call>, n: nat)
    requires n <= |calls| && n <= |calls'|
    requires forall i :: 0 <= i < n ==> calls'[i].retry == calls[i].retry
    ensures Unset(calls', n) == Unset(calls, n)
  {
    if n == 0 {
    } else {
      UnsetSame(calls, calls', n - 1);
    }
  }

  lemma {:induction false} UnsetDrop(calls: seq<Call>, calls': seq<Call>, n: nat, c: nat)
    requires c < n && n <= |calls| && n <= |calls'|
    requires !calls[c].retry && calls'[c].retry
    requires forall i :: 0 <= i < n && i != c ==> calls'[i].retry == calls[i].retry
    ensures Unset(calls', n) == Unset(calls, n) - 1
  {
    if c == n - 1 {
      UnsetSame(calls, calls', n - 1);
    } else {
      UnsetDrop(calls, calls', n - 1, c);
    }
  }

  predicate CycleInv(s: State) {
    && |s.calls| == 2 * s.n
    && s.cycles + Unset(s.calls, s.n) == s.n
    && (s.isRefreshing ==> s.cycles >= 1)
  }

  lemma StepCycles(s: State, a: Action)
    requires Shape(s) && CycleInv(s)
    ensures CycleInv(Step(s, a))
  {
    StepMoves(s, a);
    var s' := Step(s, a);
    if s'.cycles != s.cycles {
      assert Begins(s, s');
      var r :| 0 <= r < s.n && !s.calls[r].retry && s'.calls[r].retry
        && forall c :: 0 <= c < |s.calls| && c != r ==> s'.calls[c].retry == s.calls[c].retry;
      UnsetDrop(s.calls, s'.calls, s.n, r);
    } else {
      UnsetSame(s.calls, s'.calls, s.n);
    }
  }

  lemma {:induction false} UnsetFresh(configs: seq<Config>, n: nat)
    requires n <= |configs|
    ensures Unset(InitCalls(configs), n) == n
  {
    if n == 0 {
    } else {
      UnsetFresh(configs, n - 1);
    }
  }

  // ---------------------------------------------------------------- how often a call is sent

  predicate AboutToSend(phase: Phase) {
    phase.Queued? || phase.NoToken? || phase.TokenHeld? || phase.TokenWait? || phase.RetryWait?
  }

  /** Cycles that have come to their end. */
  function EndedCycles(s: State): int {
    s.cycles - if s.isRefreshing then 1 else 0
  }

  function Flag(b: bool): nat {
    if b then 1 else 0
  }

  predicate SendInv(s: State, c: nat)
    requires c < |s.calls|
  {
    var call := s.calls[c];
    |call.sent| + Flag(AboutToSend(call.phase))
      <= 1 + Flag(call.csrfRetry) + if c < s.n then EndedCycles(s) else 0
  }

  ghost predicate SendsInv(s: State) {
    forall c :: 0 <= c < |s.calls| ==> SendInv(s, c)
  }

  lemma StepSends(s: State, a: Action)
    requires Shape(s) && CycleInv(s) && LogsInv(s) && SendsInv(s)
    ensures SendsInv(Step(s, a))
  {
    StepMoves(s, a);
    var s' := Step(s, a);
    forall c | 0 <= c < |s'.calls| ensures SendInv(s', c) {
      MoveSends(s, s', c);
    }
  }

  lemma MoveSends(s: State, s': State, c: nat)
    requires Moves(s, s') && c < 2 * s.n && SendInv(s, c) && LogInv(s.calls[c])
    requires s.isRefreshing ==> s.cycles >= 1
    requires c >= s.n ==> RefreshShape(s.calls[c])
    ensures SendInv(s', c)
  {
    assert Move(s.calls[c], s'.calls[c]);
  }

  // ---------------------------------------------------------------- the log of one call

  /** Answers that the server gives before any controller runs. */
  predicate Refused(answer: Answer) {
    answer.Unauthorized? || answer.CsrfForbidden?
  }

  predicate LogInv(call: Call) {
    && (call.phase.Idle? ==> call.sent == [] && call.answers == [] && call.key == None && !call.csrfRetry)
    && |call.sent| == |call.answers| + Flag(call.phase.InFlight?)
    && (forall i :: 0 <= i < |call.answers| && (i < |call.answers| - 1 || !call.phase.Settled?) ==>
         Refused(call.answers[i]))
    && (call.phase.Settled? ==>
         (call.phase.verdict.Resolved? <==> call.answers != [] && call.answers[|call.answers| - 1].Ok?))
    && (forall i :: 0 <= i < |call.sent| ==> call.sent[i].key == call.key)
    && (call.key.Some? ==> call.config.needsToken && call.config.needsKey)
    && (call.sent != [] && call.config.needsToken && call.config.needsKey ==> call.key.Some?)
  }

  ghost predicate LogsInv(s: State) {
    forall c :: 0 <= c < |s.calls| ==> LogInv(s.calls[c])
  }

  lemma StepLogs(s: State, a: Action)
    requires Shape(s) && LogsInv(s)
    ensures LogsInv(Step(s, a))
  {
    StepMoves(s, a);
    forall c | 0 <= c < |s.calls| ensures LogInv(Step(s, a).calls[c]) {
      MoveLog(s.calls[c], Step(s, a).calls[c]);
    }
  }

  lemma {:induction false} MoveLog(o: Call, n: Call)
    requires Move(o, n) && LogInv(o)
    ensures LogInv(n)
  {
    if Transmitted(o, n) {
      TransmittedLog(o, n);
    } else if Answered(o, n) {
      AnsweredLog(o, n);
    } else if Dropped(o, n) || Woken(o, n) {
      RejectedLog(o, n);
    }
  }

  lemma {:induction false} TransmittedLog(o: Call, n: Call)
    requires Transmitted(o, n) && LogInv(o)
    ensures LogInv(n)
  {
    assert forall i :: 0 <= i < |o.sent| ==> n.sent[i] == n.sent[..|o.sent|][i];
  }

  lemma {:induction false} AnsweredLog(o: Call, n: Call)
    requires Answered(o, n) && LogInv(o)
    ensures LogInv(n)
  {
    var answer := n.answers[|o.answers|];
    assert n.answers == o.answers + [answer];
    assert answer.Unauthorized? || answer.CsrfForbidden? || n.phase.Settled?;
  }

  lemma {:induction false} RejectedLog(o: Call, n: Call)
    requires (Dropped(o, n) || Woken(o, n)) && LogInv(o)
    ensures LogInv(n)
  {
    assert o.answers != [] ==> Refused(o.answers[|o.answers| - 1]);
  }

  // ---------------------------------------------------------------- all runs

  ghost predicate Inv(s: State) {
    Shape(s) && CycleInv(s) && LogsInv(s) && SendsInv(s)
  }

  lemma StepInv(s: State, a: Action)
    requires Inv(s)
    ensures Inv(Step(s, a)) && Step(s, a).n == s.n
  {
    StepShape(s, a);
    StepCycles(s, a);
    StepLogs(s, a);
    StepSends(s, a);
    SizeIsFixed(s, a);
  }

  lemma SizeIsFixed(s: State, a: Action)
    ensures Step(s, a).n == s.n
  {
  }

  lemma {:induction false} RunInv(configs: seq<Config>, acts: seq<Action>)
    ensures Inv(Run(Init(configs), acts)) && Run(Init(configs), acts).n == |configs|
    decreases |acts|
  {
    if acts == [] {
      InitShape(configs);
      UnsetFresh(configs, |configs|);
    } else {
      RunInv(configs, acts[..|acts| - 1]);
      StepInv(Run(Init(configs), acts[..|acts| - 1]), acts[|acts| - 1]);
    }
  }

  ghost predicate Reachable(s: State) {
    exists configs: seq<Config>, acts: seq<Action> :: s == Run(Init(configs), acts)
  }

  lemma ReachableInv(s: State)
    requires Reachable(s)
    ensures Inv(s)
  {
    var configs: seq<Config>, acts: seq<Action> :| s == Run(Init(configs), acts);
    RunInv(configs, acts);
  }
}
