/**
 The browser's HTTP client (client/src/api/axiosInstance.js) as a step machine.

 One step is one synchronous stretch of JavaScript between two awaits, or one answer of the
 server. Any number of application requests share the CSRF token, the CSRF promise and the
 refresh queue. Slot `n + r` of `calls` is the POST /api/auth/refresh that request `r` issues
 when it leads a refresh cycle; it is an ordinary call of the same client.
*/
module Client {
  import opened Options

  type Token = string
  type Key = string

  datatype Url = RefreshUrl | MeUrl | OtherUrl

  /** `needsToken`: unsafe method outside the CSRF endpoint; `needsKey`: an idempotent mutation. */
  datatype Config = Config(url: Url, needsToken: bool, needsKey: bool)

  /** CsrfForbidden is a 403 whose message mentions CSRF; OtherFailure covers every other
      failure, a lost response or a timeout included. */
  datatype Answer = Ok | Unauthorized | CsrfForbidden | OtherFailure

  datatype Verdict = Resolved | Rejected

  datatype Phase =
    | Idle                      // not issued yet
    | Queued                    // about to run the request interceptor
    | NoToken                   // safe request, ready to be sent
    | TokenHeld(token: Token)   // ensureCsrfToken returned the cached token
    | TokenWait(fetch: nat)     // awaiting the CSRF promise in the request interceptor
    | InFlight                  // sent, no answer yet
    | RetryWait(fetch: nat)     // awaiting the CSRF promise after a CSRF refusal
    | Waiting                   // in failedQueue
    | Leading                   // awaiting its own refresh call
    | Settled(verdict: Verdict) // the caller's promise is settled

  datatype Attempt = Attempt(key: Option<Key>, token: Option<Token>)

  datatype Call = Call(
    config: Config, phase: Phase, retry: bool, csrfRetry: bool, key: Option<Key>,
    sent: seq<Attempt>, answers: seq<Answer>)

  /** A CSRF fetch: answered but not yet through `.finally`, or done. */
  datatype Fetch = Flying | Landed(ok: bool, token: Option<Token>) | Done(ok: bool, token: Option<Token>)

  datatype State = State(
    n: nat, calls: seq<Call>, fetches: seq<Fetch>, csrfToken: Option<Token>, csrfPromise: Option<nat>,
    isRefreshing: bool, failedQueue: seq<nat>, cycles: nat, redirected: bool)

  datatype Action =
    | Issue(r: nat)
    | Intercept(c: nat)
    | Dispatch(c: nat, freshKey: Key)
    | Respond(c: nat, answer: Answer)
    | ResumeRetry(c: nat)
    | FetchAnswer(f: nat, ok: bool, token: Option<Token>)
    | FetchFinally(f: nat)
    | EndCycle(r: nat)

  // ---------------------------------------------------------------- initial state

  function FreshCall(config: Config): Call {
    Call(config, Idle, false, false, None, [], [])
  }

  const REFRESH_CONFIG := Config(RefreshUrl, true, false)

  function InitCalls(configs: seq<Config>): (calls: seq<Call>)
    ensures |calls| == 2 * |configs|
    ensures forall i :: 0 <= i < |configs| ==> calls[i] == FreshCall(configs[i])
    ensures forall i :: |configs| <= i < 2 * |configs| ==> calls[i] == FreshCall(REFRESH_CONFIG)
  {
    seq(2 * |configs|, i requires 0 <= i => if i < |configs| then FreshCall(configs[i]) else FreshCall(REFRESH_CONFIG))
  }

  function Init(configs: seq<Config>): State {
    State(|configs|, InitCalls(configs), [], None, None, false, [], 0, false)
  }

  // ---------------------------------------------------------------- steps

  datatype Ensured = Have(token: Token) | Wait(fetch: nat)

  /** ensureCsrfToken up to its await: the cached token, the shared promise, or a new fetch. */
  function EnsureToken(s: State): (State, Ensured) {
    if s.csrfToken.Some? then (s, Have(s.csrfToken.value))
    else if s.csrfPromise.Some? then (s, Wait(s.csrfPromise.value))
    else (s.(fetches := s.fetches + [Flying], csrfPromise := Some(|s.fetches|)), Wait(|s.fetches|))
  }

  function SetCall(s: State, c: nat, call: Call): State
    requires c < |s.calls|
  {
    s.(calls := s.calls[c := call])
  }

  function SetPhase(s: State, c: nat, phase: Phase): State
    requires c < |s.calls|
  {
    SetCall(s, c, s.calls[c].(phase := phase))
  }

  predicate FetchDone(s: State, f: nat) {
    f < |s.fetches| && s.fetches[f].Done?
  }

  /** The calls that some step may still move, with the step named by the action. */
  predicate Enabled(s: State, a: Action) {
    match a
    case Issue(r) => r < s.n && r < |s.calls| && s.calls[r].phase.Idle?
    case Intercept(c) => c < |s.calls| && s.calls[c].phase.Queued?
    case Dispatch(c, _) =>
      && c < |s.calls|
      && (var p := s.calls[c].phase;
          p.NoToken? || p.TokenHeld? || (p.TokenWait? && FetchDone(s, p.fetch)))
    case Respond(c, _) => c < |s.calls| && s.calls[c].phase.InFlight?
    case ResumeRetry(c) =>
      c < |s.calls| && s.calls[c].phase.RetryWait? && FetchDone(s, s.calls[c].phase.fetch)
    case FetchAnswer(f, _, _) => f < |s.fetches| && s.fetches[f].Flying?
    case FetchFinally(f) => f < |s.fetches| && s.fetches[f].Landed?
    case EndCycle(r) =>
      r < s.n && s.n + r < |s.calls| && s.calls[r].phase.Leading? && s.calls[s.n + r].phase.Settled?
  }

  function InterceptCall(s: State, c: nat): State
    requires c < |s.calls|
  {
    if !s.calls[c].config.needsToken then SetPhase(s, c, NoToken)
    else
      var (s1, e) := EnsureToken(s);
      match e
      case Have(token) => SetPhase(s1, c, TokenHeld(token))
      case Wait(f) => SetPhase(s1, c, TokenWait(f))
  }

  function Send(call: Call, token: Option<Token>, freshKey: Key): Call {
    var key := if call.config.needsToken && call.config.needsKey && call.key.None? then Some(freshKey) else call.key;
    call.(phase := InFlight, key := key, sent := call.sent + [Attempt(key, token)])
  }

  function DispatchCall(s: State, c: nat, freshKey: Key): State
    requires c < |s.calls|
  {
    match s.calls[c].phase
    case NoToken => SetCall(s, c, Send(s.calls[c], None, freshKey))
    case TokenHeld(t) => SetCall(s, c, Send(s.calls[c], Some(t), freshKey))
    case TokenWait(f) =>
      if !FetchDone(s, f) then s
      else if s.fetches[f].ok then SetCall(s, c, Send(s.calls[c], s.fetches[f].token, freshKey))
      else SetPhase(s, c, Settled(Rejected))
    case _ => s
  }

  /** What the response interceptor decides to do with one answer. */
  datatype Reaction = Finish(verdict: Verdict, redirect: bool) | RetryCsrf | Join | Lead

  /** The branches of the response interceptor, in the order in which it tests them. */
  function React(call: Call, answer: Answer, isRefreshing: bool): Reaction {
    if answer.Ok? then Finish(Resolved, false)
    else if answer.CsrfForbidden? && !call.csrfRetry then RetryCsrf
    else if !answer.Unauthorized? then Finish(Rejected, false)
    else if call.config.url.RefreshUrl? then Finish(Rejected, true)
    else if call.config.url.MeUrl? && !call.retry then Finish(Rejected, false)
    else if call.retry then Finish(Rejected, true)
    else if isRefreshing then Join
    else Lead
  }

  function LogAnswer(s: State, c: nat, answer: Answer): State
    requires c < |s.calls|
  {
    SetCall(s, c, s.calls[c].(answers := s.calls[c].answers + [answer]))
  }

  function FinishCall(s: State, c: nat, verdict: Verdict, redirect: bool): State
    requires c < |s.calls|
  {
    SetPhase(s, c, Settled(verdict)).(redirected := s.redirected || redirect)
  }

  /** Forget the token, then wait for the promise that ensureCsrfToken returns. */
  function RetryWithFreshToken(s: State, c: nat): State
    requires c < |s.calls|
  {
    var (s1, e) := EnsureToken(s.(csrfToken := None));
    if e.Wait? then SetCall(s1, c, s.calls[c].(csrfRetry := true, phase := RetryWait(e.fetch))) else s1
  }

  function JoinQueue(s: State, c: nat): State
    requires c < |s.calls|
  {
    SetPhase(s, c, Waiting).(failedQueue := s.failedQueue + [c])
  }

  function StartRefresh(s: State, c: nat): State
    requires c < |s.calls|
  {
    if s.n + c < |s.calls| then
      var s1 := SetCall(s, c, s.calls[c].(retry := true, phase := Leading));
      SetPhase(s1, s.n + c, Queued).(isRefreshing := true, cycles := s.cycles + 1)
    else s
  }

  function RespondCall(s0: State, c: nat, answer: Answer): State
    requires c < |s0.calls|
  {
    var s := LogAnswer(s0, c, answer);
    match React(s.calls[c], answer, s.isRefreshing)
    case Finish(verdict, redirect) => FinishCall(s, c, verdict, redirect)
    case RetryCsrf => RetryWithFreshToken(s, c)
    case Join => JoinQueue(s, c)
    case Lead => StartRefresh(s, c)
  }

  /** What the end of a cycle does to a waiter, and to the leader itself. */
  function Wake(call: Call, ok: bool): Call {
    call.(phase := if ok then Queued else Settled(Rejected))
  }

  function WakeAll(calls: seq<Call>, who: seq<nat>, ok: bool): (woken: seq<Call>)
    ensures |woken| == |calls|
    ensures forall i :: 0 <= i < |calls| ==> woken[i] == if i in who then Wake(calls[i], ok) else calls[i]
  {
    seq(|calls|, i requires 0 <= i < |calls| => if i in who then Wake(calls[i], ok) else calls[i])
  }

  function EndRefresh(s: State, r: nat): State
    requires r < s.n && s.n + r < |s.calls|
  {
    var ok := s.calls[s.n + r].phase == Settled(Resolved);
    s.(calls := WakeAll(s.calls, s.failedQueue + [r], ok), failedQueue := [], isRefreshing := false,
       redirected := s.redirected || !ok)
  }

  function Step(s: State, a: Action): State {
    if !Enabled(s, a) then s
    else match a
      case Issue(r) => SetPhase(s, r, Queued)
      case Intercept(c) => InterceptCall(s, c)
      case Dispatch(c, k) => DispatchCall(s, c, k)
      case Respond(c, answer) => RespondCall(s, c, answer)
      case ResumeRetry(c) =>
        SetPhase(s, c, if s.fetches[s.calls[c].phase.fetch].ok then Queued else Settled(Rejected))
      case FetchAnswer(f, ok, token) =>
        s.(fetches := s.fetches[f := Landed(ok, token)], csrfToken := if ok then token else s.csrfToken)
      case FetchFinally(f) =>
        s.(fetches := s.fetches[f := Done(s.fetches[f].ok, s.fetches[f].token)], csrfPromise := None)
      case EndCycle(r) => EndRefresh(s, r)
  }

  function Run(s: State, acts: seq<Action>): State
    decreases |acts|
  {
    if acts == [] then s else Step(Run(s, acts[..|acts| - 1]), acts[|acts| - 1])
  }

  /** Every action of the run is enabled when its turn comes. */
  predicate Live(s: State, acts: seq<Action>)
    decreases |acts|
  {
    acts == [] ||
    (Live(s, acts[..|acts| - 1]) && Enabled(Run(s, acts[..|acts| - 1]), acts[|acts| - 1]))
  }
}
