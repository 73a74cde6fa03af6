/**
 The interceptors of client/src/api/axiosInstance.js as methods over the module's variables and
 the flags of the request configurations. Each method is one synchronous stretch of code, and
 is proved to take exactly the step of the machine in module Client.
*/
module AxiosInstance {
  import opened Options
  import opened Client

  /** Waking the queue and then the leader is waking both at once. */
  lemma {:induction false} QueueThenLeader(calls: seq<Call>, queue: seq<nat>, r: nat, ok: bool)
    requires r < |calls|
    ensures WakeAll(calls, queue, ok)[r := Wake(WakeAll(calls, queue, ok)[r], ok)] == WakeAll(calls, queue + [r], ok)
  {
    assert (queue + [r])[|queue|] == r;
    forall i | 0 <= i < |calls| ensures i in queue + [r] <==> i in queue || i == r {}
  }

  /** The queue and the leader woken, the queue emptied, no refresh under way. */
  function Released(s: State, r: nat, ok: bool): State {
    s.(calls := WakeAll(s.calls, s.failedQueue + [r], ok), failedQueue := [], isRefreshing := false,
       redirected := s.redirected || !ok)
  }

  lemma {:induction false} EndIsRelease(s: State, r: nat, ok: bool)
    requires Enabled(s, EndCycle(r)) && ok == s.calls[s.n + r].phase.verdict.Resolved?
    ensures Step(s, EndCycle(r)) == Released(s, r, ok)
  {
    assert ok <==> s.calls[s.n + r].phase == Settled(Resolved);
  }

  lemma {:induction false} KeepsConfigs(calls: seq<Call>, who: seq<nat>, ok: bool)
    ensures |WakeAll(calls, who, ok)| == |calls|
    ensures forall i :: 0 <= i < |calls| ==> WakeAll(calls, who, ok)[i].config == calls[i].config
  {
  }

  class AxiosClient {
    const n: nat
    var calls: seq<Call>
    var fetches: seq<Fetch>
    var csrfToken: Option<Token>
    var csrfPromise: Option<nat>
    var isRefreshing: bool
    var failedQueue: seq<nat>
    var cycles: nat
    var redirected: bool

    ghost function View(): State
      reads this
    {
      State(n, calls, fetches, csrfToken, csrfPromise, isRefreshing, failedQueue, cycles, redirected)
    }

    ghost predicate Valid()
      reads this
    {
      && |calls| == 2 * n
      && (forall c :: n <= c < |calls| ==> calls[c].config == REFRESH_CONFIG)
      && (forall i :: 0 <= i < |failedQueue| ==> failedQueue[i] < |calls|)
    }

    constructor (configs: seq<Config>)
      ensures View() == Init(configs) && Valid()
    {
      n := |configs|;
      calls := InitCalls(configs);
      fetches, csrfToken, csrfPromise := [], None, None;
      isRefreshing, failedQueue, cycles, redirected := false, [], 0, false;
    }

    method EnsureCsrfToken() returns (e: Ensured)
      modifies this`fetches, this`csrfPromise
      ensures (View(), e) == EnsureToken(old(View()))
    {
      if csrfToken.Some? {
        return Have(csrfToken.value);
      }
      if csrfPromise.None? {
        fetches := fetches + [Flying];
        csrfPromise := Some(|fetches| - 1);
      }
      return Wait(csrfPromise.value);
    }

    method ClearCsrfToken()
      modifies this`csrfToken
      ensures csrfToken == None
    {
      csrfToken := None;
    }

    /** The request interceptor up to its await. */
    method RequestInterceptor(c: nat)
      requires Valid() && Enabled(View(), Intercept(c))
      modifies this
      ensures Valid() && View() == Step(old(View()), Intercept(c))
    {
      if calls[c].config.needsToken {
        var e := EnsureCsrfToken();
        match e {
          case Have(token) => calls := calls[c := calls[c].(phase := TokenHeld(token))];
          case Wait(f) => calls := calls[c := calls[c].(phase := TokenWait(f))];
        }
      } else {
        calls := calls[c := calls[c].(phase := NoToken)];
      }
    }

    /** The rest of the request interceptor, then the send. */
    method SendRequest(c: nat, freshKey: Key)
      requires Valid() && Enabled(View(), Dispatch(c, freshKey))
      modifies this
      ensures Valid() && View() == Step(old(View()), Dispatch(c, freshKey))
    {
      var call := calls[c];
      var header := None;
      if call.phase.TokenHeld? {
        header := Some(call.phase.token);
      } else if call.phase.TokenWait? {
        var fetch := fetches[call.phase.fetch];
        if !fetch.ok {
          calls := calls[c := call.(phase := Settled(Rejected))];
          return;
        }
        header := fetch.token;
      }
      if call.config.needsToken && call.config.needsKey && call.key.None? {
        call := call.(key := Some(freshKey));
      }
      call := call.(phase := InFlight, sent := call.sent + [Attempt(call.key, header)]);
      calls := calls[c := call];
    }

    /** The `.then` of the CSRF fetch. */
    method CsrfAnswered(f: nat, ok: bool, token: Option<Token>)
      requires Valid() && Enabled(View(), FetchAnswer(f, ok, token))
      modifies this
      ensures Valid() && View() == Step(old(View()), FetchAnswer(f, ok, token))
    {
      if ok {
        csrfToken := token;
      }
      fetches := fetches[f := Landed(ok, token)];
    }

    /** The `.finally` of the CSRF fetch. */
    method CsrfFinally(f: nat)
      requires Valid() && Enabled(View(), FetchFinally(f))
      modifies this
      ensures Valid() && View() == Step(old(View()), FetchFinally(f))
    {
      csrfPromise := None;
      fetches := fetches[f := Done(fetches[f].ok, fetches[f].token)];
    }

    /** `return Promise.reject(error)` or the plain answer, with or without going to the login page. */
    method Finish(c: nat, verdict: Verdict, redirect: bool)
      requires Valid() && c < |calls|
      modifies this`calls, this`redirected
      ensures Valid() && View() == FinishCall(old(View()), c, verdict, redirect)
    {
      if redirect {
        redirected := true;
      }
      calls := calls[c := calls[c].(phase := Settled(verdict))];
    }

    /** The CSRF branch up to its await. */
    method RetryCsrf(c: nat)
      requires Valid() && c < |calls|
      modifies this
      ensures Valid() && View() == RetryWithFreshToken(old(View()), c)
    {
      ClearCsrfToken();
      var e := EnsureCsrfToken();
      calls := calls[c := calls[c].(csrfRetry := true, phase := RetryWait(e.fetch))];
    }

    method JoinFailedQueue(c: nat)
      requires Valid() && c < |calls|
      modifies this`calls, this`failedQueue
      ensures Valid() && View() == JoinQueue(old(View()), c)
    {
      failedQueue := failedQueue + [c];
      calls := calls[c := calls[c].(phase := Waiting)];
    }

    /** The leader's branch up to the await of its refresh call. */
    method LeadRefresh(c: nat)
      requires Valid() && c < n
      modifies this`calls, this`isRefreshing, this`cycles
      ensures Valid() && View() == StartRefresh(old(View()), c)
    {
      isRefreshing := true;
      cycles := cycles + 1;
      calls := calls[c := calls[c].(retry := true, phase := Leading)];
      calls := calls[n + c := calls[n + c].(phase := Queued)];
    }

    /** The response interceptor, up to its first await or its return. */
    method OnResponse(c: nat, answer: Answer)
      requires Valid() && Enabled(View(), Respond(c, answer))
      modifies this
      ensures Valid() && View() == Step(old(View()), Respond(c, answer))
    {
      var call := calls[c].(answers := calls[c].answers + [answer]);
      calls := calls[c := call];
      assert View() == LogAnswer(old(View()), c, answer);
      if answer.Ok? {
        Finish(c, Resolved, false);
        return;
      }
      if answer.CsrfForbidden? && !call.csrfRetry {
        RetryCsrf(c);
        return;
      }
      if !answer.Unauthorized? {
        Finish(c, Rejected, false);
        return;
      }
      if call.config.url.RefreshUrl? {
        Finish(c, Rejected, true);
        return;
      }
      if call.config.url.MeUrl? && !call.retry {
        Finish(c, Rejected, false);
        return;
      }
      if call.retry {
        Finish(c, Rejected, true);
        return;
      }
      if isRefreshing {
        JoinFailedQueue(c);
        return;
      }
      LeadRefresh(c);
    }

    /** After the CSRF retry's await: resend, or fail with the fetch. */
    method ResumeAfterCsrf(c: nat)
      requires Valid() && Enabled(View(), ResumeRetry(c))
      modifies this
      ensures Valid() && View() == Step(old(View()), ResumeRetry(c))
    {
      if fetches[calls[c].phase.fetch].ok {
        calls := calls[c := calls[c].(phase := Queued)];
      } else {
        calls := calls[c := calls[c].(phase := Settled(Rejected))];
      }
    }

    /** processQueue: resolve or reject every waiter, then empty the queue. */
    method ProcessQueue(ok: bool)
      requires forall i :: 0 <= i < |failedQueue| ==> failedQueue[i] < |calls|
      modifies this`calls, this`failedQueue
      ensures calls == WakeAll(old(calls), old(failedQueue), ok)
      ensures failedQueue == []
    {
      var i := 0;
      while i < |failedQueue|
        invariant 0 <= i <= |failedQueue| && failedQueue == old(failedQueue)
        invariant calls == WakeAll(old(calls), failedQueue[..i], ok)
      {
        var waiter := failedQueue[i];
        assert failedQueue[..i + 1] == failedQueue[..i] + [waiter];
        calls := calls[waiter := Wake(calls[waiter], ok)];
        i := i + 1;
      }
      assert failedQueue[..i] == failedQueue;
      failedQueue := [];
    }

    /** The leader's continuation: try, catch and finally run in one stretch. */
    method SettleRefresh(r: nat, ok: bool)
      requires Valid() && r < |calls|
      modifies this`calls, this`failedQueue, this`redirected, this`isRefreshing
      ensures Valid() && View() == Released(old(View()), r, ok)
    {
      QueueThenLeader(calls, failedQueue, r, ok);
      KeepsConfigs(calls, failedQueue + [r], ok);
      ProcessQueue(ok);
      if !ok {
        redirected := true;
      }
      calls := calls[r := Wake(calls[r], ok)];
      isRefreshing := false;
    }

    /** The leader resumes when its refresh call is settled. */
    method FinishRefresh(r: nat)
      requires Valid() && Enabled(View(), EndCycle(r))
      modifies this
      ensures Valid() && View() == Step(old(View()), EndCycle(r))
    {
      var ok := calls[n + r].phase.verdict.Resolved?;
      EndIsRelease(View(), r, ok);
      SettleRefresh(r, ok);
    }
  }
}
