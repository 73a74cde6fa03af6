/** Which CSRF token the browser client sends, what it makes of each answer, and when it goes to the login page. */
module ClientAnswers {
  import opened Options
  import opened Client
  import opened ClientProofs

  // ---------------------------------------------------------------- CSRF tokens

  /** A fetch that has succeeded brought this token. */
  ghost predicate Fetched(s: State, token: Option<Token>) {
    exists f :: 0 <= f < |s.fetches| && !s.fetches[f].Flying? && s.fetches[f].ok && s.fetches[f].token == token
  }

  /** What a call has sent, or is about to send. */
  ghost predicate TokensFit(s: State, call: Call) {
    && (call.phase.NoToken? ==> !call.config.needsToken)
    && (call.phase.TokenHeld? ==> call.config.needsToken && Fetched(s, Some(call.phase.token)))
    && (call.phase.TokenWait? ==> call.config.needsToken)
    && (forall i :: 0 <= i < |call.sent| ==>
         if call.config.needsToken then Fetched(s, call.sent[i].token) else call.sent[i].token == None)
  }

  ghost predicate AllTokensFit(s: State) {
    && (s.csrfToken.Some? ==> Fetched(s, s.csrfToken))
    && (forall c :: 0 <= c < |s.calls| ==> TokensFit(s, s.calls[c]))
  }

  lemma {:induction false} FetchedStays(s: State, a: Action, token: Option<Token>)
    requires Fetched(s, token)
    ensures Fetched(Step(s, a), token)
  {
    var f :| 0 <= f < |s.fetches| && !s.fetches[f].Flying? && s.fetches[f].ok && s.fetches[f].token == token;
    var s' := Step(s, a);
    FetchKept(s, a, f);
    assert s'.fetches[f].ok && s'.fetches[f].token == token;
  }

  /** A fetch that has been answered keeps its answer. */
  predicate FetchStays(s: State, s': State, f: nat)
    requires f < |s.fetches| && !s.fetches[f].Flying?
  {
    && f < |s'.fetches| && !s'.fetches[f].Flying?
    && s'.fetches[f].ok == s.fetches[f].ok && s'.fetches[f].token == s.fetches[f].token
  }

  lemma {:induction false} RespondKeepsFetches(s: State, c: nat, answer: Answer)
    requires c < |s.calls|
    ensures s.fetches <= RespondCall(s, c, answer).fetches
  {
  }

  lemma {:induction false} InterceptKeepsFetches(s: State, c: nat)
    requires c < |s.calls|
    ensures s.fetches <= InterceptCall(s, c).fetches
  {
  }

  lemma {:induction false} DispatchKeepsFetches(s: State, c: nat, k: Key)
    requires c < |s.calls|
    ensures DispatchCall(s, c, k).fetches == s.fetches
  {
  }

  lemma {:induction false} FetchKept(s: State, a: Action, f: nat)
    requires f < |s.fetches| && !s.fetches[f].Flying?
    ensures FetchStays(s, Step(s, a), f)
  {
    if Enabled(s, a) {
      match a
      case Respond(c, answer) => RespondKeepsFetches(s, c, answer);
      case Intercept(c) => InterceptKeepsFetches(s, c);
      case Dispatch(c, k) => DispatchKeepsFetches(s, c, k);
      case _ =>
    }
  }

  lemma {:induction false} CachedIsFetched(s: State, a: Action)
    requires s.csrfToken.Some? ==> Fetched(s, s.csrfToken)
    ensures Step(s, a).csrfToken.Some? ==> Fetched(Step(s, a), Step(s, a).csrfToken)
  {
    var s' := Step(s, a);
    if Enabled(s, a) && a.FetchAnswer? && a.ok {
      assert s'.fetches[a.f] == Landed(true, a.token) && s'.csrfToken == a.token;
    } else if s'.csrfToken.Some? {
      CacheKept(s, a);
      FetchedStays(s, a, s.csrfToken);
    }
  }

  lemma {:induction false} CacheKept(s: State, a: Action)
    requires Step(s, a).csrfToken.Some? && !(Enabled(s, a) && a.FetchAnswer? && a.ok)
    ensures Step(s, a).csrfToken == s.csrfToken
  {
  }

  /** The call sends nothing and is given no token. */
  predicate Quiet(o: Call, n: Call) {
    n.config == o.config && n.sent == o.sent && (ReadyToSend(n.phase) ==> n.phase == o.phase)
  }

  ghost predicate AllQuiet(s: State, s': State) {
    |s'.calls| == |s.calls| && forall c :: 0 <= c < |s.calls| ==> Quiet(s.calls[c], s'.calls[c])
  }

  lemma {:induction false} PhaseIsQuiet(s: State, c: nat, phase: Phase)
    requires c < |s.calls| && !ReadyToSend(phase)
    ensures AllQuiet(s, SetPhase(s, c, phase))
  {
  }

  lemma {:induction false} RetryIsQuiet(s: State, c: nat)
    requires c < |s.calls|
    ensures AllQuiet(s, RetryWithFreshToken(s, c))
  {
  }

  lemma {:induction false} LeadIsQuiet(s: State, c: nat)
    requires c < |s.calls|
    ensures AllQuiet(s, StartRefresh(s, c))
  {
  }

  lemma {:induction false} QuietTrans(s: State, s1: State, s2: State)
    requires AllQuiet(s, s1) && AllQuiet(s1, s2)
    ensures AllQuiet(s, s2)
  {
    forall c | 0 <= c < |s.calls| ensures Quiet(s.calls[c], s2.calls[c]) {
      assert Quiet(s.calls[c], s1.calls[c]) && Quiet(s1.calls[c], s2.calls[c]);
    }
  }

  lemma {:induction false} RespondIsQuiet(s0: State, c: nat, answer: Answer)
    requires c < |s0.calls|
    ensures AllQuiet(s0, RespondCall(s0, c, answer))
  {
    var s := LogAnswer(s0, c, answer);
    assert AllQuiet(s0, s);
    match React(s.calls[c], answer, s.isRefreshing)
    case Finish(verdict, redirect) =>
      PhaseIsQuiet(s, c, Settled(verdict));
      QuietTrans(s0, s, FinishCall(s, c, verdict, redirect));
    case RetryCsrf =>
      RetryIsQuiet(s, c);
      QuietTrans(s0, s, RetryWithFreshToken(s, c));
    case Join =>
      PhaseIsQuiet(s, c, Waiting);
      QuietTrans(s0, s, JoinQueue(s, c));
    case Lead =>
      LeadIsQuiet(s, c);
      QuietTrans(s0, s, StartRefresh(s, c));
  }

  lemma {:induction false} EndIsQuiet(s: State, r: nat)
    requires r < s.n && s.n + r < |s.calls|
    ensures AllQuiet(s, EndRefresh(s, r))
  {
  }

  lemma {:induction false} OthersAreQuiet(s: State, a: Action)
    requires !a.Intercept? && !a.Dispatch?
    ensures AllQuiet(s, Step(s, a))
  {
    if Enabled(s, a) {
      match a
      case Issue(r) => PhaseIsQuiet(s, r, Queued);
      case Respond(c, answer) => RespondIsQuiet(s, c, answer);
      case ResumeRetry(c) =>
        PhaseIsQuiet(s, c, if s.fetches[s.calls[c].phase.fetch].ok then Queued else Settled(Rejected));
      case EndCycle(r) => EndIsQuiet(s, r);
      case _ =>
    }
  }

  // ---------------------------------------------------------------- the two steps that concern tokens

  /** What the interceptor gives its call: nothing for a safe request; otherwise the cached token; failing that, the
      fetch under way, or a new one, to wait for. */
  lemma {:induction false} InterceptGives(s: State, c: nat)
    requires Enabled(s, Intercept(c))
    ensures var s' := Step(s, Intercept(c));
            && |s'.calls| == |s.calls| && s'.calls == s.calls[c := s.calls[c].(phase := s'.calls[c].phase)]
            && s'.csrfToken == s.csrfToken
            && (s'.calls[c].phase == NoToken <==> !s.calls[c].config.needsToken)
            && (forall token :: s'.calls[c].phase == TokenHeld(token) <==>
                 s.calls[c].config.needsToken && s.csrfToken == Some(token))
            && (s'.calls[c].phase.TokenWait? <==> s.calls[c].config.needsToken && s.csrfToken.None?)
            && (s'.calls[c].phase.TokenWait? ==>
                 && s'.csrfPromise == Some(s'.calls[c].phase.fetch)
                 && (s.csrfPromise.Some? ==> s'.csrfPromise == s.csrfPromise && s'.fetches == s.fetches)
                 && (s.csrfPromise.None? ==> s'.fetches == s.fetches + [Flying]))
            && (!s'.calls[c].phase.TokenWait? ==> s'.fetches == s.fetches && s'.csrfPromise == s.csrfPromise)
  {
  }

  /** The token with which a dispatch sends its call; None where the fetch it waited for has failed. */
  predicate Sends(s: State, phase: Phase, token: Option<Token>) {
    match phase
    case NoToken => token == None
    case TokenHeld(held) => token == Some(held)
    case TokenWait(f) => f < |s.fetches| && s.fetches[f].Done? && s.fetches[f].ok && s.fetches[f].token == token
    case _ => false
  }

  /** What a dispatch does to its call: it sends it with its token, or, if the fetch it waited for has failed,
      rejects it and sends nothing. */
  lemma {:induction false} DispatchSends(s: State, c: nat, k: Key)
    requires Enabled(s, Dispatch(c, k))
    ensures var s' := Step(s, Dispatch(c, k));
            var o, n := s.calls[c], s'.calls[c];
            && s' == s.(calls := s.calls[c := n]) && n.config == o.config && n.retry == o.retry
            && (n.phase.InFlight? <==> exists token :: Sends(s, o.phase, token))
            && (n.phase.InFlight? ==>
                 exists token :: Sends(s, o.phase, token) && n.sent == o.sent + [Attempt(n.key, token)])
            && (!n.phase.InFlight? ==> n == o.(phase := Settled(Rejected)) && o.phase.TokenWait?)
  {
    var o, n := s.calls[c], Step(s, Dispatch(c, k)).calls[c];
    if n.phase.InFlight? {
      var token := n.sent[|o.sent|].token;
      assert Sends(s, o.phase, token) && n.sent == o.sent + [Attempt(n.key, token)];
    }
  }

  lemma {:induction false} SentIsFetched(s: State, call: Call, token: Option<Token>)
    requires TokensFit(s, call) && Sends(s, call.phase, token)
    ensures if call.config.needsToken then Fetched(s, token) else token == None
  {
  }

  lemma {:induction false} FitStays(s: State, a: Action, o: Call, n: Call)
    requires TokensFit(s, o) && Quiet(o, n)
    ensures TokensFit(Step(s, a), n)
  {
    if o.phase.TokenHeld? { FetchedStays(s, a, Some(o.phase.token)); }
    forall i | 0 <= i < |n.sent| && n.config.needsToken ensures Fetched(Step(s, a), n.sent[i].token) {
      FetchedStays(s, a, o.sent[i].token);
    }
  }

  lemma {:induction false} InterceptFits(s: State, c: nat)
    requires Enabled(s, Intercept(c)) && TokensFit(s, s.calls[c]) && (s.csrfToken.Some? ==> Fetched(s, s.csrfToken))
    ensures TokensFit(Step(s, Intercept(c)), Step(s, Intercept(c)).calls[c])
  {
    InterceptGives(s, c);
    var a, o, n := Intercept(c), s.calls[c], Step(s, Intercept(c)).calls[c];
    if n.phase.TokenHeld? { FetchedStays(s, a, Some(n.phase.token)); }
    forall i | 0 <= i < |n.sent| && n.config.needsToken ensures Fetched(Step(s, a), n.sent[i].token) {
      FetchedStays(s, a, o.sent[i].token);
    }
  }

  lemma {:induction false} DispatchFits(s: State, c: nat, k: Key)
    requires Enabled(s, Dispatch(c, k)) && TokensFit(s, s.calls[c])
    ensures TokensFit(Step(s, Dispatch(c, k)), Step(s, Dispatch(c, k)).calls[c])
  {
    DispatchSends(s, c, k);
    var a, o, n := Dispatch(c, k), s.calls[c], Step(s, Dispatch(c, k)).calls[c];
    if n.phase.InFlight? {
      var token :| Sends(s, o.phase, token) && n.sent == o.sent + [Attempt(n.key, token)];
      SentIsFetched(s, o, token);
      forall i | 0 <= i < |n.sent| && n.config.needsToken ensures Fetched(Step(s, a), n.sent[i].token) {
        FetchedStays(s, a, n.sent[i].token);
      }
    } else {
      FitStays(s, a, o, n);
    }
  }

  lemma {:induction false} StepTokensFit(s: State, a: Action)
    requires AllTokensFit(s)
    ensures AllTokensFit(Step(s, a))
  {
    var s' := Step(s, a);
    CachedIsFetched(s, a);
    if Enabled(s, a) && a.Intercept? {
      InterceptGives(s, a.c);
      InterceptFits(s, a.c);
      forall c | 0 <= c < |s.calls| && c != a.c ensures TokensFit(s', s'.calls[c]) {
        FitStays(s, a, s.calls[c], s'.calls[c]);
      }
    } else if Enabled(s, a) && a.Dispatch? {
      DispatchSends(s, a.c, a.freshKey);
      DispatchFits(s, a.c, a.freshKey);
      forall c | 0 <= c < |s.calls| && c != a.c ensures TokensFit(s', s'.calls[c]) {
        FitStays(s, a, s.calls[c], s'.calls[c]);
      }
    } else {
      if Enabled(s, a) { OthersAreQuiet(s, a); }
      forall c | 0 <= c < |s'.calls| ensures TokensFit(s', s'.calls[c]) {
        FitStays(s, a, s.calls[c], s'.calls[c]);
      }
    }
  }

  lemma {:induction false} RunTokensFit(configs: seq<Config>, acts: seq<Action>)
    ensures AllTokensFit(Run(Init(configs), acts))
    decreases |acts|
  {
    if acts == [] {
    } else {
      RunTokensFit(configs, acts[..|acts| - 1]);
      StepTokensFit(Run(Init(configs), acts[..|acts| - 1]), acts[|acts| - 1]);
    }
  }

  /** In every run, every attempt of an unsafe request carries a token that a successful fetch has brought, and no
      attempt of a safe one carries any. */
  lemma {:induction false} AttemptsCarryTokens(s: State, c: nat, i: nat)
    requires Reachable(s) && c < |s.calls| && i < |s.calls[c].sent|
    ensures s.calls[c].config.needsToken ==> Fetched(s, s.calls[c].sent[i].token)
    ensures !s.calls[c].config.needsToken ==> s.calls[c].sent[i].token == None
  {
    var configs: seq<Config>, acts: seq<Action> :| s == Run(Init(configs), acts);
    RunTokensFit(configs, acts);
    assert TokensFit(s, s.calls[c]);
  }

  // ---------------------------------------------------------------- from the interceptor to the send

  predicate NotDispatched(acts: seq<Action>, c: nat) {
    forall i :: 0 <= i < |acts| ==> !(acts[i].Dispatch? && acts[i].c == c)
  }

  /** A call that is ready to be sent is moved by its own dispatch only. */
  lemma {:induction false} ReadyStays(s: State, a: Action, c: nat)
    requires Shape(s) && c < |s.calls| && ReadyToSend(s.calls[c].phase) && !(a.Dispatch? && a.c == c)
    ensures |Step(s, a).calls| == |s.calls| && Step(s, a).calls[c] == s.calls[c]
  {
    StepMoves(s, a);
    var o, n := s.calls[c], Step(s, a).calls[c];
    assert Move(o, n);
    if Enabled(s, a) && a.Dispatch? {
      DispatchSends(s, a.c, a.freshKey);
    } else if Enabled(s, a) && a.Intercept? {
      InterceptGives(s, a.c);
    } else if Enabled(s, a) {
      OthersAreQuiet(s, a);
      assert Quiet(o, n);
      ReadyIsLeft(s, a, c);
    }
  }

  lemma {:induction false} ReadyIsLeft(s: State, a: Action, c: nat)
    requires Shape(s) && c < |s.calls| && ReadyToSend(s.calls[c].phase) && Enabled(s, a)
    requires !a.Dispatch? && !a.Intercept? && |Step(s, a).calls| == |s.calls|
    ensures Step(s, a).calls[c] == s.calls[c]
  {
    match a
    case Respond(d, answer) =>
      if d < s.n { assert AppShape(s, d); }
      RespondLeavesReady(s, d, answer, c);
    case EndCycle(r) => EndLeavesReady(s, r, c);
    case _ =>
  }

  lemma {:induction false} EndLeavesReady(s: State, r: nat, c: nat)
    requires Shape(s) && c < |s.calls| && ReadyToSend(s.calls[c].phase) && Enabled(s, EndCycle(r))
    ensures |Step(s, EndCycle(r)).calls| == |s.calls| && Step(s, EndCycle(r)).calls[c] == s.calls[c]
  {
    assert c !in s.failedQueue + [r];
  }

  lemma {:induction false} RetryLeaves(s: State, d: nat, c: nat)
    requires c < |s.calls| && d < |s.calls| && c != d
    ensures |RetryWithFreshToken(s, d).calls| == |s.calls| && RetryWithFreshToken(s, d).calls[c] == s.calls[c]
  {
  }

  lemma {:induction false} LeadLeaves(s: State, d: nat, c: nat)
    requires c < |s.calls| && d < |s.calls| && c != d && (s.n + d < |s.calls| ==> c != s.n + d)
    ensures |StartRefresh(s, d).calls| == |s.calls| && StartRefresh(s, d).calls[c] == s.calls[c]
  {
  }

  lemma {:induction false} RespondLeavesReady(s0: State, d: nat, answer: Answer, c: nat)
    requires Enabled(s0, Respond(d, answer)) && c < |s0.calls| == 2 * s0.n && ReadyToSend(s0.calls[c].phase)
    requires d < s0.n && s0.n + d < |s0.calls| && !s0.calls[d].retry ==> s0.calls[s0.n + d].phase.Idle?
    requires |Step(s0, Respond(d, answer)).calls| == |s0.calls|
    ensures Step(s0, Respond(d, answer)).calls[c] == s0.calls[c]
  {
    var s := LogAnswer(s0, d, answer);
    assert c != d && s.calls[c] == s0.calls[c];
    match React(s.calls[d], answer, s.isRefreshing)
    case Finish(verdict, redirect) =>
    case RetryCsrf => RetryLeaves(s, d, c);
    case Join =>
    case Lead => LeadLeaves(s, d, c);
  }

  lemma {:induction false} ReadyRun(s: State, more: seq<Action>, c: nat)
    requires Shape(s) && c < |s.calls| && ReadyToSend(s.calls[c].phase) && NotDispatched(more, c)
    ensures var v := Run(s, more); Shape(v) && c < |v.calls| && v.calls[c] == s.calls[c]
    decreases |more|
  {
    if more == [] {
    } else {
      var front, last := more[..|more| - 1], more[|more| - 1];
      ReadyRun(s, front, c);
      StepShape(Run(s, front), last);
      ReadyStays(Run(s, front), last, c);
    }
  }

  /** A call whose interceptor finds a cached token is sent with that token, whatever happens to the cache in
      between; one that finds none waits for one fetch, shared with all that wait at that time, and is sent with
      what that fetch brings, or rejected unsent if it fails; a safe request is sent without. */
  lemma {:induction false} InterceptedCallsAreSent(s: State, c: nat, more: seq<Action>, k: Key)
    requires Reachable(s) && Enabled(s, Intercept(c)) && NotDispatched(more, c)
    requires Enabled(Run(Step(s, Intercept(c)), more), Dispatch(c, k))
    ensures var v := Run(Step(s, Intercept(c)), more);
            var n := Step(v, Dispatch(c, k)).calls[c];
            && (!s.calls[c].config.needsToken ==> IsSentWith(s.calls[c], n, None))
            && (s.calls[c].config.needsToken && s.csrfToken.Some? ==> IsSentWith(s.calls[c], n, s.csrfToken))
            && (s.calls[c].config.needsToken && s.csrfToken.None? ==>
                 var f := if s.csrfPromise.Some? then s.csrfPromise.value else |s.fetches|;
                 && f < |v.fetches| && v.fetches[f].Done?
                 && (v.fetches[f].ok ==> IsSentWith(s.calls[c], n, v.fetches[f].token))
                 && (!v.fetches[f].ok ==> n.phase == Settled(Rejected) && n.sent == s.calls[c].sent))
  {
    ReachableInv(s);
    var s1 := Step(s, Intercept(c));
    StepShape(s, Intercept(c));
    InterceptGives(s, c);
    assert ReadyToSend(s1.calls[c].phase);
    ReadyRun(s1, more, c);
    DispatchSends(Run(s1, more), c, k);
  }

  predicate IsSentWith(o: Call, n: Call, token: Option<Token>) {
    n.phase.InFlight? && n.sent == o.sent + [Attempt(n.key, token)]
  }

  // ---------------------------------------------------------------- what the client makes of an answer

  /** The flag of a CSRF retry says whether the call has been refused for its token before. */
  ghost predicate FlagsTell(s: State) {
    forall c :: 0 <= c < |s.calls| ==> (s.calls[c].csrfRetry <==> CsrfForbidden in s.calls[c].answers)
  }

  /** A call keeps its answers and its flag, or a refusal for its token raises the flag. */
  predicate FlagMove(o: Call, n: Call) {
    || (n.answers == o.answers && n.csrfRetry == o.csrfRetry)
    || (exists answer :: n.answers == o.answers + [answer] && n.csrfRetry == (o.csrfRetry || answer.CsrfForbidden?))
  }

  ghost predicate FlagMoves(s: State, s': State) {
    |s'.calls| == |s.calls| && forall c :: 0 <= c < |s.calls| ==> FlagMove(s.calls[c], s'.calls[c])
  }

  /** The branches of the interceptor leave the answer as it is logged. */
  lemma {:induction false} FinishKeeps(s: State, c: nat, verdict: Verdict, redirect: bool, d: nat)
    requires c < |s.calls| && d < |s.calls|
    ensures FinishCall(s, c, verdict, redirect).calls[d].answers == s.calls[d].answers
    ensures FinishCall(s, c, verdict, redirect).calls[d].csrfRetry == s.calls[d].csrfRetry
    ensures JoinQueue(s, c).calls[d].answers == s.calls[d].answers
    ensures JoinQueue(s, c).calls[d].csrfRetry == s.calls[d].csrfRetry
  {
  }

  lemma {:induction false} LeadKeeps(s: State, c: nat, d: nat)
    requires c < |s.calls| && d < |s.calls|
    ensures |StartRefresh(s, c).calls| == |s.calls| && StartRefresh(s, c).calls[d].answers == s.calls[d].answers
    ensures StartRefresh(s, c).calls[d].csrfRetry == s.calls[d].csrfRetry
  {
  }

  lemma {:induction false} RetryKeeps(s: State, c: nat, d: nat)
    requires c < |s.calls| && d < |s.calls|
    ensures |RetryWithFreshToken(s, c).calls| == |s.calls|
    ensures RetryWithFreshToken(s, c).calls[d].answers == s.calls[d].answers
    ensures RetryWithFreshToken(s, c).calls[d].csrfRetry == (s.calls[d].csrfRetry || c == d)
    ensures RetryWithFreshToken(s, c).calls[c].phase.RetryWait?
    ensures RetryWithFreshToken(s, c).redirected == s.redirected
    ensures RetryWithFreshToken(s, c).failedQueue == s.failedQueue
  {
  }

  lemma {:induction false} RespondFlags(s0: State, c: nat, answer: Answer)
    requires Enabled(s0, Respond(c, answer))
    ensures FlagMoves(s0, Step(s0, Respond(c, answer)))
  {
    var s, s' := LogAnswer(s0, c, answer), Step(s0, Respond(c, answer));
    assert |s'.calls| == |s.calls| by { RespondIsQuiet(s0, c, answer); }
    forall d | 0 <= d < |s.calls| ensures FlagMove(s0.calls[d], s'.calls[d]) {
      match React(s.calls[c], answer, s.isRefreshing)
      case Finish(verdict, redirect) => FinishKeeps(s, c, verdict, redirect, d);
      case RetryCsrf => RetryKeeps(s, c, d);
      case Join => FinishKeeps(s, c, Resolved, false, d);
      case Lead => LeadKeeps(s, c, d);
    }
  }

  lemma {:induction false} OtherFlags(s: State, a: Action)
    requires !a.Respond? && !a.Dispatch? && !a.Intercept?
    ensures FlagMoves(s, Step(s, a))
  {
  }

  lemma {:induction false} StepFlags(s: State, a: Action)
    requires FlagsTell(s)
    ensures FlagsTell(Step(s, a))
  {
    var s' := Step(s, a);
    if !Enabled(s, a) {
    } else if a.Respond? {
      RespondFlags(s, a.c, a.answer);
    } else if a.Dispatch? {
      DispatchFlags(s, a.c, a.freshKey);
    } else if a.Intercept? {
      InterceptGives(s, a.c);
    } else {
      OtherFlags(s, a);
    }
    assert FlagMoves(s, s');
    forall c | 0 <= c < |s'.calls| ensures s'.calls[c].csrfRetry <==> CsrfForbidden in s'.calls[c].answers {
      assert FlagMove(s.calls[c], s'.calls[c]);
    }
  }

  lemma {:induction false} DispatchFlags(s: State, c: nat, k: Key)
    requires Enabled(s, Dispatch(c, k))
    ensures FlagMoves(s, Step(s, Dispatch(c, k)))
  {
  }

  lemma {:induction false} RunFlags(configs: seq<Config>, acts: seq<Action>)
    ensures FlagsTell(Run(Init(configs), acts))
    decreases |acts|
  {
    if acts == [] {
    } else {
      RunFlags(configs, acts[..|acts| - 1]);
      StepFlags(Run(Init(configs), acts[..|acts| - 1]), acts[|acts| - 1]);
    }
  }

  /** The request's refresh call has been issued. */
  predicate HasLed(s: State, c: nat) {
    c < s.n && s.n + c < |s.calls| && !s.calls[s.n + c].phase.Idle?
  }

  /** A 401 makes this call refresh the session, or wait for a refresh: an application request other than the one
      that asks who is logged in, which has not led a refresh before. */
  predicate MayRefresh(s: State, c: nat)
    requires c < |s.calls|
  {
    c < s.n && s.calls[c].config.url.OtherUrl? && !HasLed(s, c)
  }

  /** A request that asks who is logged in takes no part in refreshes. */
  predicate MeStaysOut(call: Call) {
    call.config.url.MeUrl? ==> !call.retry && !call.phase.Leading? && !call.phase.Waiting?
  }

  ghost predicate AllMeStayOut(s: State) {
    forall c :: 0 <= c < |s.calls| ==> MeStaysOut(s.calls[c])
  }

  lemma {:induction false} AnsweredMe(s0: State, c: nat, answer: Answer, d: nat)
    requires Enabled(s0, Respond(c, answer)) && MeStaysOut(s0.calls[c]) && d < |s0.calls| && MeStaysOut(s0.calls[d])
    ensures |RespondCall(s0, c, answer).calls| == |s0.calls| && MeStaysOut(RespondCall(s0, c, answer).calls[d])
  {
    RespondIsQuiet(s0, c, answer);
  }

  lemma {:induction false} OtherMe(s: State, a: Action, d: nat)
    requires !a.Respond? && !a.Dispatch? && !a.Intercept? && d < |s.calls| && MeStaysOut(s.calls[d])
    ensures |Step(s, a).calls| == |s.calls| && MeStaysOut(Step(s, a).calls[d])
  {
  }

  lemma {:induction false} DispatchMe(s: State, c: nat, k: Key, d: nat)
    requires d < |s.calls| && MeStaysOut(s.calls[d])
    ensures |Step(s, Dispatch(c, k)).calls| == |s.calls| && MeStaysOut(Step(s, Dispatch(c, k)).calls[d])
  {
    if Enabled(s, Dispatch(c, k)) { DispatchSends(s, c, k); }
  }

  lemma {:induction false} StepMe(s: State, a: Action)
    requires AllMeStayOut(s)
    ensures AllMeStayOut(Step(s, a))
  {
    if Enabled(s, a) && a.Intercept? { InterceptGives(s, a.c); }
    forall d | 0 <= d < |s.calls| ensures |Step(s, a).calls| == |s.calls| && MeStaysOut(Step(s, a).calls[d]) {
      if !Enabled(s, a) {
      } else if a.Respond? {
        AnsweredMe(s, a.c, a.answer, d);
      } else if a.Dispatch? {
        DispatchMe(s, a.c, a.freshKey, d);
      } else if !a.Intercept? {
        OtherMe(s, a, d);
      }
    }
    CallsStay(s, a);
  }

  lemma {:induction false} CallsStay(s: State, a: Action)
    ensures |Step(s, a).calls| == |s.calls|
  {
    if !Enabled(s, a) {
    } else if a.Intercept? {
      InterceptGives(s, a.c);
    } else if a.Dispatch? {
      DispatchSends(s, a.c, a.freshKey);
    } else {
      OthersAreQuiet(s, a);
    }
  }

  lemma {:induction false} RunMe(configs: seq<Config>, acts: seq<Action>)
    ensures AllMeStayOut(Run(Init(configs), acts))
    decreases |acts|
  {
    if acts == [] {
    } else {
      RunMe(configs, acts[..|acts| - 1]);
      StepMe(Run(Init(configs), acts[..|acts| - 1]), acts[|acts| - 1]);
    }
  }

  /** What becomes of a call by its answer, in every reachable state. A success resolves it. The first refusal for
      its CSRF token makes it fetch a new one and go again; a second does not. A 401 makes a request that may
      refresh wait for the refresh under way, behind all that wait already, or lead one. Everything else rejects it;
      and the login page is opened just for a 401 to the refresh itself, or to a request that has led a refresh. */
  lemma {:induction false} AnswerIsHandled(s: State, c: nat, answer: Answer)
    requires Reachable(s) && Enabled(s, Respond(c, answer))
    ensures var s' := Step(s, Respond(c, answer));
            var o := s.calls[c];
            var joins := answer.Unauthorized? && MayRefresh(s, c);
            var again := answer.CsrfForbidden? && CsrfForbidden !in o.answers;
            && c < |s'.calls|
            && (s'.calls[c].phase == Settled(Resolved) <==> answer.Ok?)
            && (s'.calls[c].phase.RetryWait? <==> again)
            && (s'.calls[c].phase.Leading? <==> joins && !s.isRefreshing)
            && (s'.calls[c].phase.Waiting? <==> joins && s.isRefreshing)
            && s'.failedQueue == s.failedQueue + (if joins && s.isRefreshing then [c] else [])
            && (s'.calls[c].phase == Settled(Rejected) <==> !answer.Ok? && !again && !joins)
            && (s'.redirected <==> s.redirected || (answer.Unauthorized? && (o.config.url.RefreshUrl? || HasLed(s, c))))
  {
    ReachableInv(s);
    var configs: seq<Config>, acts: seq<Action> :| s == Run(Init(configs), acts);
    RunMe(configs, acts);
    RunFlags(configs, acts);
    if c < s.n { assert AppShape(s, c); } else { assert RefreshShape(s.calls[c]); }
    assert MeStaysOut(s.calls[c]);
    assert s.calls[c].csrfRetry <==> CsrfForbidden in s.calls[c].answers;
    Handled(s, c, answer);
  }

  lemma {:induction false} Handled(s0: State, c: nat, answer: Answer)
    requires Enabled(s0, Respond(c, answer)) && MeStaysOut(s0.calls[c]) && |s0.calls| == 2 * s0.n
    requires if c < s0.n then s0.calls[c].retry <==> HasLed(s0, c)
             else s0.calls[c].config.url.RefreshUrl? && !s0.calls[c].retry
    ensures var s' := RespondCall(s0, c, answer);
            var o := s0.calls[c];
            var joins := answer.Unauthorized? && MayRefresh(s0, c);
            var again := answer.CsrfForbidden? && !o.csrfRetry;
            && c < |s'.calls|
            && (s'.calls[c].phase == Settled(Resolved) <==> answer.Ok?)
            && (s'.calls[c].phase.RetryWait? <==> again)
            && (s'.calls[c].phase.Leading? <==> joins && !s0.isRefreshing)
            && (s'.calls[c].phase.Waiting? <==> joins && s0.isRefreshing)
            && s'.failedQueue == s0.failedQueue + (if joins && s0.isRefreshing then [c] else [])
            && (s'.calls[c].phase == Settled(Rejected) <==> !answer.Ok? && !again && !joins)
            && (s'.redirected <==>
                 s0.redirected || (answer.Unauthorized? && (o.config.url.RefreshUrl? || HasLed(s0, c))))
  {
    var s := LogAnswer(s0, c, answer);
    var s' := RespondCall(s0, c, answer);
    match React(s.calls[c], answer, s.isRefreshing)
    case Finish(verdict, redirect) => assert s' == FinishCall(s, c, verdict, redirect);
    case RetryCsrf => RetryKeeps(s, c, c);
    case Join => assert s' == JoinQueue(s, c);
    case Lead => LeadLeads(s, c);
  }

  lemma {:induction false} LeadLeads(s: State, c: nat)
    requires c < s.n && |s.calls| == 2 * s.n
    ensures c < |StartRefresh(s, c).calls| && StartRefresh(s, c).calls[c].phase.Leading?
    ensures StartRefresh(s, c).redirected == s.redirected && StartRefresh(s, c).failedQueue == s.failedQueue
  {
  }

  // ---------------------------------------------------------------- the login page

  /** The steps that open the login page: a 401 to a refresh, or to a request that has led one, and the end of a cycle
      whose refresh has failed. */
  predicate Redirects(s: State, a: Action) {
    match a
    case Respond(c, answer) =>
      Enabled(s, a) && answer.Unauthorized? && (s.calls[c].config.url.RefreshUrl? || HasLed(s, c))
    case EndCycle(r) => Enabled(s, a) && s.calls[s.n + r].phase != Settled(Resolved)
    case _ => false
  }

  lemma {:induction false} EndRedirects(s: State, r: nat)
    requires Enabled(s, EndCycle(r))
    ensures Step(s, EndCycle(r)).redirected <==> s.redirected || Redirects(s, EndCycle(r))
  {
  }

  lemma {:induction false} OthersDoNotRedirect(s: State, a: Action)
    requires !a.Respond? && !a.EndCycle? && !a.Dispatch?
    ensures Step(s, a).redirected == s.redirected
  {
  }

  lemma {:induction false} StepRedirects(s: State, a: Action)
    requires Reachable(s)
    ensures Step(s, a).redirected <==> s.redirected || Redirects(s, a)
  {
    if !Enabled(s, a) {
      assert !Redirects(s, a);
    } else if a.Respond? {
      AnswerIsHandled(s, a.c, a.answer);
    } else if a.EndCycle? {
      EndRedirects(s, a.r);
    } else if a.Dispatch? {
      DispatchSends(s, a.c, a.freshKey);
    } else {
      OthersDoNotRedirect(s, a);
    }
  }

  predicate RedirectsAt(s: State, acts: seq<Action>, i: int) {
    0 <= i < |acts| && Redirects(Run(s, acts[..i]), acts[i])
  }

  ghost predicate SomeRedirects(s: State, acts: seq<Action>) {
    exists i :: RedirectsAt(s, acts, i)
  }

  lemma {:induction false} EarlierRedirect(s: State, acts: seq<Action>, i: int)
    requires 0 <= i < |acts| - 1
    ensures RedirectsAt(s, acts[..|acts| - 1], i) <==> RedirectsAt(s, acts, i)
  {
    assert acts[..|acts| - 1][..i] == acts[..i];
  }

  lemma {:induction false} LastMayRedirect(s: State, acts: seq<Action>)
    requires acts != []
    ensures var k := |acts| - 1;
            SomeRedirects(s, acts) <==> SomeRedirects(s, acts[..k]) || RedirectsAt(s, acts, k)
  {
    var k := |acts| - 1;
    forall i | 0 <= i < k ensures RedirectsAt(s, acts[..k], i) <==> RedirectsAt(s, acts, i) {
      EarlierRedirect(s, acts, i);
    }
    if i :| RedirectsAt(s, acts[..k], i) { assert RedirectsAt(s, acts, i); }
  }

  /** In every run the browser has been sent to the login page if and only if one of these steps occurred. */
  lemma {:induction false} LoginPageIsForLostSessions(configs: seq<Config>, acts: seq<Action>)
    ensures Run(Init(configs), acts).redirected <==> SomeRedirects(Init(configs), acts)
    decreases |acts|
  {
    if acts == [] {
    } else {
      var front := acts[..|acts| - 1];
      LoginPageIsForLostSessions(configs, front);
      LastMayRedirect(Init(configs), acts);
      RunIsReachable(configs, front);
      StepRedirects(Run(Init(configs), front), acts[|acts| - 1]);
    }
  }

  lemma {:induction false} RunIsReachable(configs: seq<Config>, acts: seq<Action>)
    ensures Reachable(Run(Init(configs), acts))
  {
  }
}
