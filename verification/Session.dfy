/**
 One browser's client machine (module Client) together with the server's token rotation (module
 Rotation) for one user and no other login or logout: does the single-flight refresh of the client fit
 the single-slot rotation of the server?

 A refresh call carries the cookie of the moment it is sent. The server may refuse it before the
 controller runs; otherwise the controller looks the token up, saves a new one, and answers, and the
 answer sets the cookie. The browser gives a call up when its time is over or the connection breaks: the
 server may then have answered already, still be at work on it, or be about to begin.
*/
module Session {
  import opened Options
  import C = Client
  import CP = ClientProofs
  import CT = ClientTheorems
  import R = Rotation

  const USER: R.UserId := 0

  /** `abandoned`: refresh calls that the browser has given up. */
  datatype World = World(client: C.State, server: R.World, cookie: Option<R.Token>, carried: map<nat, Option<R.Token>>,
      abandoned: set<nat>)

  datatype Action =
    | Browser(a: C.Action)                      // everything but the answers to refresh calls
    | RefuseEarly(c: nat, answer: C.Answer)     // CSRF check, rate limiter, an error on the way
    | LookUp(c: nat)
    | Save(c: nat)
    | SaveFails(c: nat)
    | Reply(c: nat)
    | GiveUp(c: nat)

  /** Right after a login. */
  function Init(configs: seq<C.Config>): World {
    World(C.Init(configs), R.World(map[USER := 0], {}, 1, map[], map[]), Some(0), map[], {})
  }

  /** A refresh call that has been sent and whose answer the browser awaits. */
  predicate Pending(w: World, c: nat) {
    w.client.n <= c < |w.client.calls| && w.client.calls[c].phase.InFlight?
  }

  /** A refresh call that the server may be working on. */
  predicate AtServer(w: World, c: nat) {
    Pending(w, c) || c in w.abandoned
  }

  function Holder(w: World, token: Option<R.Token>): Option<R.UserId> {
    if token.Some? && R.TokenOf(w.server, USER) == token then Some(USER) else None
  }

  function LookUpOf(w: World, c: nat): R.Action
    requires c in w.carried
  {
    R.LookUp(c, w.carried[c], Holder(w, w.carried[c]))
  }

  predicate Enabled(w: World, a: Action) {
    match a
    case Browser(b) => C.Enabled(w.client, b) && (b.Respond? ==> b.c < w.client.n)
    case RefuseEarly(c, answer) => Pending(w, c) && c !in w.server.reqs
        && (answer.CsrfForbidden? || answer.OtherFailure?)
    case LookUp(c) => AtServer(w, c) && c in w.carried && R.Enabled(w.server, LookUpOf(w, c))
    case Save(c) => AtServer(w, c) && R.Enabled(w.server, R.Save(c))
    case SaveFails(c) => AtServer(w, c) && R.Enabled(w.server, R.Fail(c))
    case Reply(c) => Pending(w, c) && c in w.server.reqs && !w.server.reqs[c].Found?
    case GiveUp(c) => Pending(w, c)
  }

  /** What the controller's answer is to the client. */
  function AnswerOf(phase: R.Phase): C.Answer {
    match phase
    case Rotated(_, _, _) => C.Ok
    case Refused(_, code) => if code == 401 then C.Unauthorized else C.OtherFailure
    case _ => C.OtherFailure
  }

  function Step(w: World, a: Action): World {
    if !Enabled(w, a) then w
    else match a
      case Browser(b) =>
        w.(client := C.Step(w.client, b),
           carried := if b.Dispatch? && w.client.n <= b.c then w.carried[b.c := w.cookie] else w.carried)
      case RefuseEarly(c, answer) => w.(client := C.Step(w.client, C.Respond(c, answer)))
      case LookUp(c) => w.(server := R.Step(w.server, LookUpOf(w, c)))
      case Save(c) => w.(server := R.Step(w.server, R.Save(c)))
      case SaveFails(c) => w.(server := R.Step(w.server, R.Fail(c)))
      case Reply(c) =>
        var phase := w.server.reqs[c];
        w.(client := C.Step(w.client, C.Respond(c, AnswerOf(phase))),
           cookie := if phase.Rotated? then Some(phase.token) else w.cookie)
      case GiveUp(c) =>
        w.(client := C.Step(w.client, C.Respond(c, C.OtherFailure)), abandoned := w.abandoned + {c})
  }

  function Run(w: World, acts: seq<Action>): World
    decreases |acts|
  {
    if acts == [] then w else Step(Run(w, acts[..|acts| - 1]), acts[|acts| - 1])
  }

  // ---------------------------------------------------------------- the client inside

  lemma {:induction false} ClientStep(w: World, a: Action)
    requires CP.Inv(w.client)
    ensures CP.Inv(Step(w, a).client)
  {
    if Enabled(w, a) {
      match a
      case Browser(b) => CP.StepInv(w.client, b);
      case RefuseEarly(c, answer) => CP.StepInv(w.client, C.Respond(c, answer));
      case Reply(c) => CP.StepInv(w.client, C.Respond(c, AnswerOf(w.server.reqs[c])));
      case GiveUp(c) => CP.StepInv(w.client, C.Respond(c, C.OtherFailure));
      case _ =>
    }
  }

  /** Single flight: at most one refresh call is pending. */
  lemma {:induction false} OnePending(w: World, c: nat, d: nat)
    requires CP.Shape(w.client) && Pending(w, c) && Pending(w, d)
    ensures c == d
  {
    OneInFlight(w.client, c, d);
  }

  lemma {:induction false} OneInFlight(s: C.State, c: nat, d: nat)
    requires CP.Shape(s) && s.n <= c < |s.calls| && s.n <= d < |s.calls|
    requires s.calls[c].phase.InFlight? && s.calls[d].phase.InFlight?
    ensures c == d
  {
    CT.RefreshHasLeader(s, c - s.n);
    CT.RefreshHasLeader(s, d - s.n);
  }

  predicate IsSettled(call: C.Call) {
    call.phase.Settled?
  }

  predicate IsInFlight(call: C.Call) {
    call.phase.InFlight?
  }

  /** What happens to a refresh call while the server does not answer it: once sent it stays as it is,
      and only its own dispatch sends it. */
  predicate LeftAlone(o: C.Call, n: C.Call, dispatched: bool) {
    n == o || (!IsSettled(o) && !IsInFlight(o) && (IsInFlight(n) ==> dispatched))
  }

  lemma {:induction false} BrowserStep(s: C.State, b: C.Action, c: nat)
    requires CP.Shape(s) && C.Enabled(s, b) && (b.Respond? ==> b.c < s.n) && s.n <= c < |s.calls|
    ensures C.Step(s, b).n == s.n && |C.Step(s, b).calls| == |s.calls|
    ensures LeftAlone(s.calls[c], C.Step(s, b).calls[c], b == C.Dispatch(c, if b.Dispatch? then b.freshKey else ""))
  {
    CP.SizeIsFixed(s, b);
    match b
    case EndCycle(r) => assert (s.failedQueue + [r])[|s.failedQueue|] == r;
    case Respond(r, answer) => RespondLeaves(s, r, answer, c);
    case Dispatch(d, key) => DispatchLeaves(s, d, key, c);
    case _ => QuietLeaves(s, b, c);
  }

  lemma {:induction false} QuietLeaves(s: C.State, b: C.Action, c: nat)
    requires C.Enabled(s, b) && s.n <= c < |s.calls| && !b.EndCycle? && !b.Respond? && !b.Dispatch?
    ensures |C.Step(s, b).calls| == |s.calls| && LeftAlone(s.calls[c], C.Step(s, b).calls[c], false)
  {
  }

  lemma {:induction false} DispatchLeaves(s: C.State, d: nat, key: C.Key, c: nat)
    requires C.Enabled(s, C.Dispatch(d, key)) && s.n <= c < |s.calls|
    ensures |C.Step(s, C.Dispatch(d, key)).calls| == |s.calls|
    ensures C.Step(s, C.Dispatch(d, key)).calls[c] == s.calls[c] || d == c
  {
  }

  lemma {:induction false} RespondLeaves(s: C.State, r: nat, answer: C.Answer, c: nat)
    requires CP.Shape(s) && C.Enabled(s, C.Respond(r, answer)) && r < s.n <= c < |s.calls|
    ensures |C.Step(s, C.Respond(r, answer)).calls| == |s.calls|
    ensures LeftAlone(s.calls[c], C.Step(s, C.Respond(r, answer)).calls[c], false)
  {
    assert CP.AppShape(s, r);
  }

  /** An answer to a refresh call that has reached the controller settles it; one that has not may
      also send it round again. No other refresh call is touched. */
  lemma {:induction false} AnswerStep(s: C.State, c: nat, answer: C.Answer, d: nat)
    requires C.Enabled(s, C.Respond(c, answer)) && s.n <= c && s.n <= d < |s.calls|
    requires s.calls[c].config.url.RefreshUrl?
    ensures var s' := C.Step(s, C.Respond(c, answer));
            && s'.n == s.n && |s'.calls| == |s.calls| && (d != c ==> s'.calls[d] == s.calls[d])
            && !IsInFlight(s'.calls[c]) && (!answer.CsrfForbidden? ==> IsSettled(s'.calls[c]))
  {
  }

  /** A refresh call that has been sent. */
  predicate WasSent(s: C.State, c: nat) {
    s.n <= c < |s.calls| && (IsInFlight(s.calls[c]) || IsSettled(s.calls[c]))
  }

  lemma {:induction false} BrowserKeepsSent(s: C.State, b: C.Action, c: nat)
    requires CP.Shape(s) && C.Enabled(s, b) && (b.Respond? ==> b.c < s.n) && WasSent(s, c)
    ensures WasSent(C.Step(s, b), c)
  {
    BrowserStep(s, b, c);
  }

  lemma {:induction false} AnswerKeepsSent(s: C.State, c: nat, answer: C.Answer, d: nat)
    requires C.Enabled(s, C.Respond(c, answer)) && s.n <= c && s.calls[c].config.url.RefreshUrl?
    requires WasSent(s, d) && (answer.CsrfForbidden? ==> d != c)
    ensures WasSent(C.Step(s, C.Respond(c, answer)), d)
  {
    AnswerStep(s, c, answer, d);
  }

  /** After the answer to the one pending call none is pending. */
  lemma {:induction false} AnswerLeavesNone(s: C.State, c: nat, answer: C.Answer, d: nat)
    requires CP.Inv(s) && C.Enabled(s, C.Respond(c, answer)) && s.n <= c && s.n <= d < |s.calls|
    ensures !IsInFlight(C.Step(s, C.Respond(c, answer)).calls[d])
    ensures |C.Step(s, C.Respond(c, answer)).calls| == |s.calls| && C.Step(s, C.Respond(c, answer)).n == s.n
  {
    assert CP.RefreshShape(s.calls[c]);
    AnswerStep(s, c, answer, d);
    if IsInFlight(s.calls[d]) { OneInFlight(s, c, d); }
  }

  // ---------------------------------------------------------------- the invariant

  predicate IsStored(w: World, token: Option<R.Token>) {
    token == R.TokenOf(w.server, USER)
  }

  predicate IsIssued(w: World, token: Option<R.Token>) {
    token.Some? && token.value < w.server.issued
  }

  predicate ServerFits(w: World) {
    && w.server.inactive == {} && w.server.stored.Keys == {USER}
    && IsIssued(w, R.TokenOf(w.server, USER)) && IsIssued(w, w.cookie)
  }

  /** What the server knows of a refresh call that reached it. */
  predicate KnownFits(w: World, c: nat)
    requires c in w.server.reqs
  {
    && WasSent(w.client, c)
    && (w.server.reqs[c].Found? ==> w.server.reqs[c].user == USER)
    && (w.server.reqs[c].Rotated? ==> w.server.reqs[c].token < w.server.issued)
  }

  /** A pending call carries the cookie; once it is saved, the cookie is not the stored token. */
  predicate PendingFits(w: World, c: nat) {
    && c in w.carried && w.carried[c] == w.cookie
    && (c in w.server.reqs && w.server.reqs[c].Rotated? ==> !IsStored(w, w.cookie))
  }

  /** The client has settled a call that it has given up. */
  predicate AbandonedFits(w: World, c: nat) {
    w.client.n <= c < |w.client.calls| && IsSettled(w.client.calls[c])
  }

  /** Every token ever sent is the cookie or stored no more. */
  predicate CarriedFits(w: World, c: nat)
    requires c in w.carried
  {
    IsIssued(w, w.carried[c]) && (w.carried[c] == w.cookie || !IsStored(w, w.carried[c]))
  }

  ghost predicate Inv(w: World) {
    && CP.Inv(w.client) && ServerFits(w)
    && (forall c :: c in w.server.reqs ==> KnownFits(w, c))
    && (forall c :: Pending(w, c) ==> PendingFits(w, c))
    && (forall c :: c in w.abandoned ==> AbandonedFits(w, c))
    && (forall c :: c in w.carried ==> CarriedFits(w, c))
  }

  lemma {:induction false} CallsFixed(s: C.State, b: C.Action)
    requires CP.Shape(s)
    ensures |C.Step(s, b).calls| == |s.calls|
  {
    CP.StepShape(s, b);
    CP.SizeIsFixed(s, b);
  }

  lemma {:induction false} BrowserKeepsAbandoned(w: World, b: C.Action, c: nat)
    requires Inv(w) && Enabled(w, Browser(b)) && c in w.abandoned
    ensures AbandonedFits(Step(w, Browser(b)), c)
  {
    assert AbandonedFits(w, c);
    BrowserStep(w.client, b, c);
  }

  lemma {:induction false} BrowserPending(w: World, b: C.Action, c: nat)
    requires Inv(w) && Enabled(w, Browser(b)) && Pending(Step(w, Browser(b)), c)
    ensures PendingFits(Step(w, Browser(b)), c)
    ensures c in w.server.reqs ==> Pending(w, c)
  {
    CP.SizeIsFixed(w.client, b);
    CallsFixed(w.client, b);
    BrowserStep(w.client, b, c);
    if Pending(w, c) {
      assert PendingFits(w, c);
    } else {
      assert b.Dispatch? && b.c == c;
      assert c in w.server.reqs ==> KnownFits(w, c);
    }
  }

  lemma {:induction false} BrowserInv(w: World, b: C.Action)
    requires Inv(w) && Enabled(w, Browser(b))
    ensures Inv(Step(w, Browser(b)))
  {
    var w' := Step(w, Browser(b));
    ClientStep(w, Browser(b));
    forall c | c in w'.server.reqs ensures KnownFits(w', c) {
      assert KnownFits(w, c);
      BrowserKeepsSent(w.client, b, c);
    }
    forall c | Pending(w', c) ensures PendingFits(w', c) { BrowserPending(w, b, c); }
    forall c | c in w'.abandoned ensures AbandonedFits(w', c) { BrowserKeepsAbandoned(w, b, c); }
    forall c | c in w'.carried ensures CarriedFits(w', c) { assert c in w.carried ==> CarriedFits(w, c); }
  }

  /** A step of the server alone leaves the browser as it is and concerns one call, which it knows then. */
  predicate ServerStep(w: World, w': World, c: nat) {
    && w' == w.(server := w'.server) && w.server.issued <= w'.server.issued && ServerFits(w')
    && c in w'.server.reqs && w'.server.reqs == w.server.reqs[c := w'.server.reqs[c]]
    && (IsStored(w', R.TokenOf(w.server, USER)) || w'.server.stored[USER] >= w.server.issued)
  }

  lemma {:induction false} ServerInv(w: World, w': World, c: nat)
    requires Inv(w) && ServerStep(w, w', c) && KnownFits(w', c)
    requires w'.server.reqs[c].Rotated? ==> !IsStored(w', w'.cookie)
    ensures Inv(w')
  {
    forall d | d in w'.server.reqs ensures KnownFits(w', d) { assert d in w.server.reqs ==> KnownFits(w, d); }
    forall d | Pending(w', d) ensures PendingFits(w', d) { assert PendingFits(w, d); }
    forall d | d in w'.abandoned ensures AbandonedFits(w', d) { assert AbandonedFits(w, d); }
    forall d | d in w'.carried ensures CarriedFits(w', d) { assert CarriedFits(w, d); }
  }

  /** A call at the server has been sent. */
  lemma {:induction false} AtServerWasSent(w: World, c: nat)
    requires Inv(w) && AtServer(w, c)
    ensures WasSent(w.client, c)
  {
    assert c in w.abandoned ==> AbandonedFits(w, c);
  }

  lemma {:induction false} LookUpInv(w: World, c: nat)
    requires Inv(w) && Enabled(w, LookUp(c))
    ensures Inv(Step(w, LookUp(c)))
  {
    AtServerWasSent(w, c);
    ServerInv(w, Step(w, LookUp(c)), c);
  }

  lemma {:induction false} SaveInv(w: World, c: nat)
    requires Inv(w) && Enabled(w, Save(c))
    ensures Inv(Step(w, Save(c)))
    ensures R.TokenOf(Step(w, Save(c)).server, USER) == Some(w.server.issued)
    ensures !IsStored(Step(w, Save(c)), Step(w, Save(c)).cookie)
  {
    assert KnownFits(w, c);
    ServerInv(w, Step(w, Save(c)), c);
  }

  lemma {:induction false} SaveFailsInv(w: World, c: nat)
    requires Inv(w) && Enabled(w, SaveFails(c))
    ensures Inv(Step(w, SaveFails(c)))
  {
    assert KnownFits(w, c);
    ServerInv(w, Step(w, SaveFails(c)), c);
  }

  ghost predicate AllSent(w: World) {
    forall c :: c in w.server.reqs ==> WasSent(w.client, c)
  }

  /** After the end of the one pending call none is pending, and every call the server knows has been sent. */
  lemma {:induction false} Answered(w: World, w': World, c: nat, answer: C.Answer)
    requires CP.Inv(w.client) && Pending(w, c) && (answer.CsrfForbidden? ==> c !in w.server.reqs) && AllSent(w)
    requires w'.client == C.Step(w.client, C.Respond(c, answer)) && w'.server == w.server
    ensures CP.Inv(w'.client) && AllSent(w') && forall d: nat :: !Pending(w', d)
  {
    CP.StepInv(w.client, C.Respond(c, answer));
    assert CP.RefreshShape(w.client.calls[c]);
    AnswerLeavesNone(w.client, c, answer, c);
    forall d | d in w'.server.reqs ensures WasSent(w'.client, d) { AnswerKeepsSent(w.client, c, answer, d); }
    forall d: nat ensures !Pending(w', d) {
      if w.client.n <= d < |w.client.calls| { AnswerLeavesNone(w.client, c, answer, d); }
    }
  }

  lemma {:induction false} AnswerKeepsAbandoned(w: World, w': World, c: nat, answer: C.Answer, d: nat)
    requires Inv(w) && Pending(w, c) && w'.client == C.Step(w.client, C.Respond(c, answer))
    requires d in w.abandoned || (d == c && !answer.CsrfForbidden?)
    ensures AbandonedFits(w', d)
  {
    assert d in w.abandoned ==> AbandonedFits(w, d);
    assert CP.RefreshShape(w.client.calls[c]);
    AnswerStep(w.client, c, answer, d);
  }

  /** However the one pending call ends for the browser: the cookie stays, or is replaced by an issued token
      when it is stored no more. */
  lemma {:induction false} AnswerInv(w: World, w': World, c: nat, answer: C.Answer)
    requires Inv(w) && Pending(w, c) && (answer.CsrfForbidden? ==> c !in w.server.reqs)
    requires w'.client == C.Step(w.client, C.Respond(c, answer)) && w'.server == w.server && w'.carried == w.carried
    requires w'.abandoned <= w.abandoned + {c} && (c in w'.abandoned ==> !answer.CsrfForbidden?)
    requires w'.cookie == w.cookie || (IsIssued(w, w'.cookie) && !IsStored(w, w.cookie))
    ensures Inv(w') && forall d: nat :: !Pending(w', d)
  {
    forall d | d in w.server.reqs ensures WasSent(w.client, d) { assert KnownFits(w, d); }
    Answered(w, w', c, answer);
    forall d | d in w'.server.reqs ensures KnownFits(w', d) { assert KnownFits(w, d) && WasSent(w'.client, d); }
    forall d | d in w'.abandoned ensures AbandonedFits(w', d) { AnswerKeepsAbandoned(w, w', c, answer, d); }
    forall d | d in w'.carried ensures CarriedFits(w', d) { assert CarriedFits(w, d); }
  }

  lemma {:induction false} RefuseEarlyInv(w: World, c: nat, answer: C.Answer)
    requires Inv(w) && Enabled(w, RefuseEarly(c, answer))
    ensures Inv(Step(w, RefuseEarly(c, answer))) && forall d: nat :: !Pending(Step(w, RefuseEarly(c, answer)), d)
  {
    assert c in w.abandoned ==> AbandonedFits(w, c);
    AnswerInv(w, Step(w, RefuseEarly(c, answer)), c, answer);
  }

  lemma {:induction false} ReplyInv(w: World, c: nat)
    requires Inv(w) && Enabled(w, Reply(c))
    ensures Inv(Step(w, Reply(c))) && forall d: nat :: !Pending(Step(w, Reply(c)), d)
  {
    assert KnownFits(w, c) && PendingFits(w, c);
    AnswerInv(w, Step(w, Reply(c)), c, AnswerOf(w.server.reqs[c]));
  }

  lemma {:induction false} GiveUpInv(w: World, c: nat)
    requires Inv(w) && Enabled(w, GiveUp(c))
    ensures Inv(Step(w, GiveUp(c))) && forall d: nat :: !Pending(Step(w, GiveUp(c)), d)
  {
    AnswerInv(w, Step(w, GiveUp(c)), c, C.OtherFailure);
  }

  lemma {:induction false} StepInv(w: World, a: Action)
    requires Inv(w)
    ensures Inv(Step(w, a))
  {
    if Enabled(w, a) {
      match a
      case Browser(b) => BrowserInv(w, b);
      case RefuseEarly(c, answer) => RefuseEarlyInv(w, c, answer);
      case LookUp(c) => LookUpInv(w, c);
      case Save(c) => SaveInv(w, c);
      case SaveFails(c) => SaveFailsInv(w, c);
      case Reply(c) => ReplyInv(w, c);
      case GiveUp(c) => GiveUpInv(w, c);
    }
  }

  lemma {:induction false} InitInv(configs: seq<C.Config>)
    ensures Inv(Init(configs))
  {
    CP.RunInv(configs, []);
    assert forall c :: 0 <= c < 2 * |configs| ==> C.Init(configs).calls[c].phase.Idle?;
  }

  lemma {:induction false} RunInv(configs: seq<C.Config>, acts: seq<Action>)
    ensures Inv(Run(Init(configs), acts))
    decreases |acts|
  {
    if acts == [] {
      InitInv(configs);
    } else {
      RunInv(configs, acts[..|acts| - 1]);
      StepInv(Run(Init(configs), acts[..|acts| - 1]), acts[|acts| - 1]);
    }
  }

  lemma {:induction false} MoreInv(w: World, more: seq<Action>)
    requires Inv(w)
    ensures Inv(Run(w, more))
    decreases |more|
  {
    if more == [] {
    } else {
      MoreInv(w, more[..|more| - 1]);
      StepInv(Run(w, more[..|more| - 1]), more[|more| - 1]);
    }
  }
}
