/** What rotation and single flight promise together, and exactly which steps lock the browser out. */
module SessionTheorems {
  import opened Options
  import opened Session
  import C = Client
  import CP = ClientProofs
  import R = Rotation

  // ---------------------------------------------------------------- what locks the browser out

  /** The awaited call may still bring the stored token: it is about to save, or has saved it. */
  predicate Hopeful(w: World, c: nat) {
    && Pending(w, c) && c in w.server.reqs
    && (w.server.reqs[c].Found? || (w.server.reqs[c].Rotated? && IsStored(w, Some(w.server.reqs[c].token))))
  }

  ghost predicate Alive(w: World) {
    IsStored(w, w.cookie) || exists c :: Hopeful(w, c)
  }

  /** The steps after which the session is lost: the awaited call is given up, or its save fails, while the
      cookie is not the stored token; or a call given up earlier saves its token, and no awaited one is
      about to save over it. */
  ghost predicate Locks(w: World, a: Action) {
    match a
    case GiveUp(_) => !IsStored(w, w.cookie)
    case SaveFails(c) => Pending(w, c) && !IsStored(w, w.cookie)
    case Save(c) => !Pending(w, c) && forall d :: Pending(w, d) && d in w.server.reqs ==> !w.server.reqs[d].Found?
    case _ => false
  }

  ghost predicate NothingLocks(w: World, acts: seq<Action>)
    decreases |acts|
  {
    acts == [] ||
    (var front, last := acts[..|acts| - 1], acts[|acts| - 1];
     NothingLocks(w, front) && !(Enabled(Run(w, front), last) && Locks(Run(w, front), last)))
  }

  lemma {:induction false} BrowserKeepsHope(w: World, b: C.Action, c: nat)
    requires Inv(w) && Enabled(w, Browser(b))
    ensures Hopeful(Step(w, Browser(b)), c) <==> Hopeful(w, c)
  {
    var w' := Step(w, Browser(b));
    if Hopeful(w', c) { BrowserPending(w, b, c); }
    if Hopeful(w, c) { BrowserStep(w.client, b, c); }
  }

  lemma {:induction false} BrowserAlive(w: World, b: C.Action)
    requires Inv(w) && Enabled(w, Browser(b))
    ensures Alive(Step(w, Browser(b))) <==> Alive(w)
  {
    forall c ensures Hopeful(Step(w, Browser(b)), c) <==> Hopeful(w, c) { BrowserKeepsHope(w, b, c); }
  }

  /** Only the one awaited call can bring hope. */
  lemma {:induction false} OnlyHope(w: World, c: nat)
    requires CP.Shape(w.client) && Pending(w, c)
    ensures Alive(w) <==> IsStored(w, w.cookie) || Hopeful(w, c)
  {
    if d :| Hopeful(w, d) { OnePending(w, c, d); }
  }

  lemma {:induction false} RefuseEarlyAlive(w: World, c: nat, answer: C.Answer)
    requires Inv(w) && Enabled(w, RefuseEarly(c, answer))
    ensures Alive(Step(w, RefuseEarly(c, answer))) <==> Alive(w)
  {
    RefuseEarlyInv(w, c, answer);
    OnlyHope(w, c);
  }

  lemma {:induction false} GiveUpAlive(w: World, c: nat)
    requires Inv(w) && Enabled(w, GiveUp(c))
    ensures Alive(Step(w, GiveUp(c))) <==> IsStored(w, w.cookie)
  {
    GiveUpInv(w, c);
  }

  lemma {:induction false} ReplyAlive(w: World, c: nat)
    requires Inv(w) && Enabled(w, Reply(c))
    ensures Alive(Step(w, Reply(c))) <==> Alive(w)
  {
    ReplyInv(w, c);
    OnlyHope(w, c);
    assert PendingFits(w, c);
    assert Alive(Step(w, Reply(c))) <==> IsStored(w, Step(w, Reply(c)).cookie);
  }

  /** A lookup by a call that is not awaited, or finds nobody, changes nobody's hope; one that finds the user
      presents the cookie. */
  lemma {:induction false} LookUpAlive(w: World, c: nat)
    requires Inv(w) && Enabled(w, LookUp(c))
    ensures Alive(Step(w, LookUp(c))) <==> Alive(w)
  {
    var w' := Step(w, LookUp(c));
    assert Pending(w, c) ==> PendingFits(w, c);
    assert CarriedFits(w, c);
    forall d | d != c ensures Hopeful(w', d) <==> Hopeful(w, d) {}
    assert Hopeful(w', c) ==> IsStored(w, w.cookie);
    assert !Hopeful(w, c);
  }

  lemma {:induction false} SaveTouches(w: World, c: nat, d: nat)
    requires Enabled(w, Save(c))
    ensures var w' := Step(w, Save(c));
            && w'.cookie == w.cookie && (Pending(w', d) <==> Pending(w, d))
            && (d != c && d in w'.server.reqs ==> d in w.server.reqs && w'.server.reqs[d] == w.server.reqs[d])
  {
  }

  /** A failed save ends the hope of its own call and leaves that of any other. */
  lemma {:induction false} SaveFailsTouches(w: World, c: nat, d: nat)
    requires Enabled(w, SaveFails(c))
    ensures var w' := Step(w, SaveFails(c));
            && w'.cookie == w.cookie && (IsStored(w', w.cookie) <==> IsStored(w, w.cookie))
            && (Hopeful(w', d) <==> d != c && Hopeful(w, d)) && (Pending(w, c) ==> Hopeful(w, c))
  {
  }

  lemma {:induction false} SaveFailsAlive(w: World, c: nat)
    requires Inv(w) && Enabled(w, SaveFails(c))
    ensures Alive(Step(w, SaveFails(c))) <==> Alive(w) && !Locks(w, SaveFails(c))
  {
    var w' := Step(w, SaveFails(c));
    forall d ensures Hopeful(w', d) <==> d != c && Hopeful(w, d) { SaveFailsTouches(w, c, d); }
    SaveFailsTouches(w, c, c);
    if Pending(w, c) {
      OnlyHope(w, c);
      forall d ensures !Hopeful(w', d) { if Hopeful(w, d) { OnePending(w, c, d); } }
    }
  }

  /** After the save of a call given up, hope is with an awaited call that is about to save over it. */
  lemma {:induction false} LateSaveHope(w: World, c: nat, d: nat)
    requires Enabled(w, Save(c)) && !Pending(w, c) && w.server.reqs[c].user == USER
    requires d in w.server.reqs ==> KnownFits(w, d)
    ensures Hopeful(Step(w, Save(c)), d) <==> Pending(w, d) && d in w.server.reqs && w.server.reqs[d].Found?
  {
  }

  lemma {:induction false} SaveAlive(w: World, c: nat)
    requires Inv(w) && Enabled(w, Save(c))
    ensures Alive(Step(w, Save(c))) <==> Alive(w) && !Locks(w, Save(c))
  {
    var w' := Step(w, Save(c));
    SaveInv(w, c);
    assert KnownFits(w, c);
    if Pending(w, c) {
      assert Hopeful(w, c) && Hopeful(w', c);
    } else {
      forall d ensures Hopeful(w', d) <==> Pending(w, d) && d in w.server.reqs && w.server.reqs[d].Found? {
        assert d in w.server.reqs ==> KnownFits(w, d);
        LateSaveHope(w, c, d);
      }
      if d :| Pending(w, d) && d in w.server.reqs && w.server.reqs[d].Found? { assert Hopeful(w, d); }
    }
  }

  /** A session is lost by exactly these steps, and never regained. */
  lemma {:induction false} StepAlive(w: World, a: Action)
    requires Inv(w) && Enabled(w, a)
    ensures Alive(Step(w, a)) <==> Alive(w) && !Locks(w, a)
  {
    match a
    case Browser(b) => BrowserAlive(w, b);
    case RefuseEarly(c, answer) => RefuseEarlyAlive(w, c, answer);
    case LookUp(c) => LookUpAlive(w, c);
    case Save(c) => SaveAlive(w, c);
    case SaveFails(c) => SaveFailsAlive(w, c);
    case Reply(c) => ReplyAlive(w, c);
    case GiveUp(c) =>
      GiveUpAlive(w, c);
      assert Alive(w) && !Locks(w, a) <==> IsStored(w, w.cookie);
  }

  lemma {:induction false} RunAlive(w: World, acts: seq<Action>)
    requires Inv(w)
    ensures Alive(Run(w, acts)) <==> Alive(w) && NothingLocks(w, acts)
    decreases |acts|
  {
    if acts == [] {
    } else {
      var front, last := acts[..|acts| - 1], acts[|acts| - 1];
      RunAlive(w, front);
      MoreInv(w, front);
      if Enabled(Run(w, front), last) { StepAlive(Run(w, front), last); }
    }
  }

  // ---------------------------------------------------------------- promises

  /** Whatever happens from here on, the cookie is never the stored token again. */
  ghost predicate LockedOut(w: World) {
    forall more: seq<Action> :: !IsStored(Run(w, more), Run(w, more).cookie)
  }

  lemma {:induction false} RunMore(w: World, acts: seq<Action>, a: Action)
    ensures Run(w, acts + [a]) == Step(Run(w, acts), a)
  {
    assert (acts + [a])[..|acts|] == acts;
  }

  lemma {:induction false} SavedHopeReplies(w: World, c: nat)
    requires Hopeful(w, c) && w.server.reqs[c].Rotated?
    ensures var w' := Step(w, Reply(c)); IsStored(w', w'.cookie)
  {
  }

  lemma {:induction false} HopeSaves(w: World, c: nat)
    requires Inv(w) && Hopeful(w, c) && w.server.reqs[c].Found?
    ensures Hopeful(Step(w, Save(c)), c) && Step(w, Save(c)).server.reqs[c].Rotated?
  {
    SaveInv(w, c);
    assert KnownFits(w, c);
  }

  lemma {:induction false} NotLockedOut(w: World, more: seq<Action>)
    requires var v := Run(w, more); IsStored(v, v.cookie)
    ensures !LockedOut(w)
  {
  }

  lemma {:induction false} TwoMore(w: World, a: Action, b: Action)
    ensures Run(w, [a]) == Step(w, a) && Run(w, [a, b]) == Step(Step(w, a), b)
  {
    RunMore(w, [], a);
    RunMore(w, [a], b);
    assert [] + [a] == [a] && [a] + [b] == [a, b];
  }

  /** While there is hope, at most one save and one answer are missing. */
  lemma {:induction false} HopeIsReal(w: World)
    requires Inv(w) && Alive(w)
    ensures !LockedOut(w)
  {
    if IsStored(w, w.cookie) {
      NotLockedOut(w, []);
    } else {
      var c :| Hopeful(w, c);
      HopeComesTrue(w, c);
    }
  }

  lemma {:induction false} HopeComesTrue(w: World, c: nat)
    requires Inv(w) && Hopeful(w, c)
    ensures !LockedOut(w)
  {
    if w.server.reqs[c].Found? {
      HopeSaves(w, c);
      SavedHopeReplies(Step(w, Save(c)), c);
      TwoMore(w, Save(c), Reply(c));
      NotLockedOut(w, [Save(c), Reply(c)]);
    } else {
      SavedHopeReplies(w, c);
      TwoMore(w, Reply(c), Reply(c));
      NotLockedOut(w, [Reply(c)]);
    }
  }

  lemma {:induction false} NoHopeIsReal(w: World)
    requires Inv(w) && !Alive(w)
    ensures LockedOut(w)
  {
    forall more: seq<Action> ensures !IsStored(Run(w, more), Run(w, more).cookie) { RunAlive(w, more); }
  }

  /** Exactly when the browser is locked out for good: after every run, whatever calls it gave up on the way,
      it can still come to hold the stored token if and only if no step of the run was one that locks. */
  lemma {:induction false} LockedOutExactly(configs: seq<C.Config>, acts: seq<Action>)
    ensures LockedOut(Run(Init(configs), acts)) <==> !NothingLocks(Init(configs), acts)
  {
    var w := Run(Init(configs), acts);
    InitInv(configs);
    RunInv(configs, acts);
    RunAlive(Init(configs), acts);
    if Alive(w) {
      HopeIsReal(w);
    } else {
      NoHopeIsReal(w);
    }
  }

  /** While there is hope, the lookup of an awaited call presents the stored token. */
  lemma {:induction false} AwaitedIsAccepted(w: World, c: nat)
    requires Inv(w) && Alive(w) && Enabled(w, LookUp(c)) && Pending(w, c)
    ensures w.carried[c].Some? && IsStored(w, w.carried[c])
    ensures Step(w, LookUp(c)).server.reqs[c] == R.Found(USER, w.carried[c].value)
  {
    assert PendingFits(w, c);
    OnlyHope(w, c);
  }

  /** No call was refused while it was awaited. */
  ghost predicate NoneRefused(w: World) {
    forall c :: c in w.server.reqs && c !in w.abandoned ==> !w.server.reqs[c].Refused?
  }

  lemma {:induction false} QuietNoneRefused(w: World, a: Action)
    requires NoneRefused(w) && (a.LookUp? ==> !Enabled(w, a))
    ensures NoneRefused(Step(w, a))
  {
  }

  lemma {:induction false} LookUpNoneRefused(w: World, c: nat)
    requires NoneRefused(w) && Enabled(w, LookUp(c))
    requires Pending(w, c) ==> Step(w, LookUp(c)).server.reqs[c].Found?
    ensures NoneRefused(Step(w, LookUp(c)))
  {
  }

  lemma {:induction false} StepNoneRefused(w: World, a: Action)
    requires Inv(w) && Alive(w) && NoneRefused(w)
    ensures NoneRefused(Step(w, a))
  {
    if a.LookUp? && Enabled(w, a) {
      if Pending(w, a.c) { AwaitedIsAccepted(w, a.c); }
      LookUpNoneRefused(w, a.c);
    } else {
      QuietNoneRefused(w, a);
    }
  }

  lemma {:induction false} RunNoneRefused(configs: seq<C.Config>, acts: seq<Action>)
    requires NothingLocks(Init(configs), acts)
    ensures NoneRefused(Run(Init(configs), acts)) && Alive(Run(Init(configs), acts))
    ensures Inv(Run(Init(configs), acts))
    decreases |acts|
  {
    RunInv(configs, acts);
    InitInv(configs);
    RunAlive(Init(configs), acts);
    if acts == [] {
    } else {
      RunNoneRefused(configs, acts[..|acts| - 1]);
      StepNoneRefused(Run(Init(configs), acts[..|acts| - 1]), acts[|acts| - 1]);
    }
  }

  /** Single flight fits rotation: with one client, as long as nothing has locked it out, every lookup of an
      awaited call presents exactly the token that is stored, and is accepted; no call is ever refused as
      already rotated unless the browser had given it up. */
  lemma {:induction false} EveryRefreshIsAccepted(configs: seq<C.Config>, acts: seq<Action>, c: nat)
    requires NothingLocks(Init(configs), acts)
    ensures var w := Run(Init(configs), acts);
            && (c in w.server.reqs && c !in w.abandoned ==> !w.server.reqs[c].Refused?)
            && (Enabled(w, LookUp(c)) && Pending(w, c) ==>
                  && w.carried[c].Some? && w.carried[c] == R.TokenOf(w.server, USER)
                  && Step(w, LookUp(c)).server.reqs[c] == R.Found(USER, w.carried[c].value))
  {
    RunNoneRefused(configs, acts);
    var w := Run(Init(configs), acts);
    if Enabled(w, LookUp(c)) && Pending(w, c) { AwaitedIsAccepted(w, c); }
  }

  /** Without hope every lookup finds nobody, whoever makes it. */
  lemma {:induction false} HopelessIsRefused(w: World, d: nat)
    requires Inv(w) && !Alive(w) && Enabled(w, LookUp(d))
    ensures Step(w, LookUp(d)).server.reqs[d] == R.Refused(w.carried[d], 401)
    ensures Pending(w, d) ==> w.carried[d] == w.cookie
  {
    assert CarriedFits(w, d);
    assert Pending(w, d) ==> PendingFits(w, d);
  }

  /** Once one step has locked the browser out, every later lookup is refused, whatever else happens. */
  lemma {:induction false} LockedOutIsRefused(configs: seq<C.Config>, acts: seq<Action>, more: seq<Action>, d: nat)
    requires !NothingLocks(Init(configs), acts)
    requires Enabled(Run(Run(Init(configs), acts), more), LookUp(d))
    ensures var v := Run(Run(Init(configs), acts), more);
            && Step(v, LookUp(d)).server.reqs[d] == R.Refused(v.carried[d], 401)
            && (Pending(v, d) ==> v.carried[d] == v.cookie)
  {
    InitInv(configs);
    RunInv(configs, acts);
    RunAlive(Init(configs), acts);
    StaysRefused(Run(Init(configs), acts), more, d);
  }

  lemma {:induction false} StaysRefused(w: World, more: seq<Action>, d: nat)
    requires Inv(w) && !Alive(w) && Enabled(Run(w, more), LookUp(d))
    ensures var v := Run(w, more);
            && Step(v, LookUp(d)).server.reqs[d] == R.Refused(v.carried[d], 401)
            && (Pending(v, d) ==> v.carried[d] == v.cookie)
  {
    MoreInv(w, more);
    RunAlive(w, more);
    HopelessIsRefused(Run(w, more), d);
  }

  /** What an answer of the controller does in the browser: a rotation resolves the refresh and sets its token as
      the cookie; a refusal with 401 rejects it, leaves the cookie, and opens the login page; any other failure
      rejects it and leaves the cookie. */
  lemma {:induction false} RepliesArriveAsSent(w: World, c: nat)
    requires CP.Shape(w.client) && Enabled(w, Reply(c))
    ensures var w', phase := Step(w, Reply(c)), w.server.reqs[c];
            && |w'.client.calls| == |w.client.calls| && w'.server == w.server
            && (w'.client.calls[c].phase == C.Settled(C.Resolved) <==> phase.Rotated?)
            && (w'.client.calls[c].phase == C.Settled(C.Rejected) <==> !phase.Rotated?)
            && w'.cookie == (if phase.Rotated? then Some(phase.token) else w.cookie)
            && (w'.client.redirected <==> w.client.redirected || (phase.Refused? && phase.code == 401))
  {
    assert CP.RefreshShape(w.client.calls[c]);
  }

  // ---------------------------------------------------------------- after a lost answer

  /** The cookie is stored nowhere, and no awaited call can replace it. */
  ghost predicate Doomed(w: World) {
    && !IsStored(w, w.cookie)
    && forall c :: Pending(w, c) && c in w.server.reqs ==> w.server.reqs[c].Refused?
  }

  lemma {:induction false} DoomedBrowser(w: World, b: C.Action)
    requires Inv(w) && Doomed(w) && Enabled(w, Browser(b))
    ensures Doomed(Step(w, Browser(b)))
  {
    var w' := Step(w, Browser(b));
    forall c | Pending(w', c) && c in w'.server.reqs ensures w'.server.reqs[c].Refused? { BrowserPending(w, b, c); }
  }

  lemma {:induction false} DoomedLookUp(w: World, c: nat)
    requires Inv(w) && Doomed(w) && Enabled(w, LookUp(c))
    ensures Doomed(Step(w, LookUp(c))) && Step(w, LookUp(c)).cookie == w.cookie
  {
    assert Pending(w, c) ==> PendingFits(w, c);
  }

  lemma {:induction false} DoomedSave(w: World, c: nat)
    requires Inv(w) && Doomed(w) && Enabled(w, Save(c))
    ensures Doomed(Step(w, Save(c))) && Step(w, Save(c)).cookie == w.cookie
  {
    SaveInv(w, c);
    SaveTouches(w, c, c);
    var w' := Step(w, Save(c));
    forall d | Pending(w', d) && d in w'.server.reqs ensures w'.server.reqs[d].Refused? { SaveTouches(w, c, d); }
  }

  lemma {:induction false} DoomedSaveFails(w: World, c: nat)
    requires Doomed(w) && Enabled(w, SaveFails(c))
    ensures Doomed(Step(w, SaveFails(c))) && Step(w, SaveFails(c)).cookie == w.cookie
  {
  }

  lemma {:induction false} DoomedStep(w: World, a: Action)
    requires Inv(w) && Doomed(w)
    ensures Doomed(Step(w, a)) && Step(w, a).cookie == w.cookie
  {
    if Enabled(w, a) {
      match a
      case Browser(b) => DoomedBrowser(w, b);
      case RefuseEarly(c, answer) => RefuseEarlyInv(w, c, answer);
      case Reply(c) => ReplyInv(w, c);
      case GiveUp(c) => GiveUpInv(w, c);
      case LookUp(c) => DoomedLookUp(w, c);
      case Save(c) => DoomedSave(w, c);
      case SaveFails(c) => DoomedSaveFails(w, c);
    }
  }

  lemma {:induction false} DoomedForever(w: World, more: seq<Action>)
    requires Inv(w) && Doomed(w)
    ensures Inv(Run(w, more)) && Doomed(Run(w, more)) && Run(w, more).cookie == w.cookie
    decreases |more|
  {
    if more == [] {
    } else {
      DoomedForever(w, more[..|more| - 1]);
      DoomedStep(Run(w, more[..|more| - 1]), more[|more| - 1]);
      StepInv(Run(w, more[..|more| - 1]), more[|more| - 1]);
    }
  }

  /** What a doomed browser meets: a dead token, refused by every lookup. */
  lemma {:induction false} DoomedFate(w: World, d: nat)
    requires Inv(w) && Doomed(w)
    ensures w.cookie.Some? && !R.TokenStored(w.server, w.cookie.value)
    ensures Pending(w, d) && d in w.server.reqs ==> w.server.reqs[d].Refused?
    ensures Enabled(w, LookUp(d)) ==> Step(w, LookUp(d)).server.reqs[d] == R.Refused(w.carried[d], 401)
    ensures Pending(w, d) ==> d in w.carried && w.carried[d] == w.cookie
  {
    if Enabled(w, LookUp(d)) { HopelessIsRefused(w, d); }
    assert Pending(w, d) ==> PendingFits(w, d);
  }

  /** One lost answer is enough, for good: after any run, if the browser gives up a call whose save is done, then
      in whatever way the run goes on, it keeps the token that the save has replaced, no awaited refresh is ever
      accepted, and every lookup answers 401. */
  lemma {:induction false} LostAnswerLocksOut(configs: seq<C.Config>, acts: seq<Action>, c: nat, more: seq<Action>,
      d: nat)
    requires var w := Run(Init(configs), acts); Enabled(w, GiveUp(c)) && c in w.server.reqs && w.server.reqs[c].Rotated?
    ensures var w' := Step(Run(Init(configs), acts), GiveUp(c));
            var v := Run(w', more);
            && v.cookie == w'.cookie && v.cookie.Some? && !R.TokenStored(v.server, v.cookie.value)
            && (Pending(v, d) && d in v.server.reqs ==> v.server.reqs[d].Refused?)
            && (Enabled(v, LookUp(d)) ==> Step(v, LookUp(d)).server.reqs[d] == R.Refused(v.carried[d], 401))
            && (Pending(v, d) ==> d in v.carried && v.carried[d] == v.cookie)
  {
    RunInv(configs, acts);
    var w := Run(Init(configs), acts);
    assert PendingFits(w, c);
    GiveUpInv(w, c);
    DoomedForever(Step(w, GiveUp(c)), more);
    DoomedFate(Run(Step(w, GiveUp(c)), more), d);
  }

  /** Giving a call up before its save is done does no harm by itself. */
  lemma {:induction false} GivingUpIsHarmless(w: World, acts: seq<Action>, c: nat)
    requires NothingLocks(w, acts) && IsStored(Run(w, acts), Run(w, acts).cookie)
    ensures NothingLocks(w, acts + [GiveUp(c)])
  {
    assert (acts + [GiveUp(c)])[..|acts|] == acts;
  }

  ghost predicate NonePending(w: World) {
    forall d: nat :: !Pending(w, d)
  }

  lemma {:induction false} LateSaveDooms(w: World, c: nat)
    requires Inv(w) && Enabled(w, Save(c)) && NonePending(w)
    ensures Inv(Step(w, Save(c))) && Doomed(Step(w, Save(c)))
  {
    SaveInv(w, c);
    forall d ensures !Pending(Step(w, Save(c)), d) { SaveTouches(w, c, d); }
  }

  lemma {:induction false} GiveUpTouches(w: World, c: nat)
    requires Enabled(w, GiveUp(c)) && c in w.server.reqs && w.server.reqs[c].Found?
    ensures Enabled(Step(w, GiveUp(c)), Save(c))
  {
  }

  lemma {:induction false} GivenUpMaySave(w: World, c: nat)
    requires Inv(w) && Enabled(w, GiveUp(c)) && c in w.server.reqs && w.server.reqs[c].Found?
    ensures Inv(Step(w, GiveUp(c))) && Enabled(Step(w, GiveUp(c)), Save(c)) && NonePending(Step(w, GiveUp(c)))
  {
    GiveUpTouches(w, c);
    GiveUpInv(w, c);
  }

  /** So does a save that comes after the browser has given the call up, though the giving up alone did no harm. */
  lemma {:induction false} LateSaveLocksOut(configs: seq<C.Config>, acts: seq<Action>, c: nat, more: seq<Action>,
      d: nat)
    requires NothingLocks(Init(configs), acts)
    requires var w := Run(Init(configs), acts);
             Enabled(w, GiveUp(c)) && c in w.server.reqs && w.server.reqs[c].Found? && IsStored(w, w.cookie)
    ensures NothingLocks(Init(configs), acts + [GiveUp(c)])
    ensures var w' := Step(Step(Run(Init(configs), acts), GiveUp(c)), Save(c));
            var v := Run(w', more);
            && v.cookie == w'.cookie && v.cookie.Some? && !R.TokenStored(v.server, v.cookie.value)
            && (Enabled(v, LookUp(d)) ==> Step(v, LookUp(d)).server.reqs[d] == R.Refused(v.carried[d], 401))
  {
    RunInv(configs, acts);
    GivingUpIsHarmless(Init(configs), acts, c);
    var w := Run(Init(configs), acts);
    GivenUpMaySave(w, c);
    LateSaveDooms(Step(w, GiveUp(c)), c);
    DoomedForever(Step(Step(w, GiveUp(c)), Save(c)), more);
    DoomedFate(Run(Step(Step(w, GiveUp(c)), Save(c)), more), d);
  }

  // ---------------------------------------------------------------- both happen

  const PAGE := C.Config(C.OtherUrl, false, false)

  /** A client of one request, from its issue to its answer 401 and its refresh call on the way. */
  function ClientOf(request: C.Phase, sent: nat, retry: bool, refresh: C.Phase, fetches: seq<C.Fetch>,
      token: Option<C.Token>, promise: Option<nat>, carries: Option<C.Token>): C.State
  {
    var page := C.Call(PAGE, request, retry, false, None, if sent > 0 then [C.Attempt(None, None)] else [],
                       if retry then [C.Unauthorized] else []);
    var call := C.Call(C.REFRESH_CONFIG, refresh, false, false, None,
                       if carries.Some? then [C.Attempt(None, carries)] else [], []);
    C.State(1, [page, call], fetches, token, promise, retry, [], if retry then 1 else 0, false)
  }

  lemma {:induction false} RequestGoesOut()
    ensures C.Init([PAGE]) == ClientOf(C.Idle, 0, false, C.Idle, [], None, None, None)
    ensures C.Step(C.Init([PAGE]), C.Issue(0)) == ClientOf(C.Queued, 0, false, C.Idle, [], None, None, None)
    ensures C.Step(ClientOf(C.Queued, 0, false, C.Idle, [], None, None, None), C.Intercept(0))
              == ClientOf(C.NoToken, 0, false, C.Idle, [], None, None, None)
    ensures C.Step(ClientOf(C.NoToken, 0, false, C.Idle, [], None, None, None), C.Dispatch(0, ""))
              == ClientOf(C.InFlight, 1, false, C.Idle, [], None, None, None)
  {
    assert C.Init([PAGE]).calls == ClientOf(C.Idle, 0, false, C.Idle, [], None, None, None).calls;
    var s := C.Step(ClientOf(C.NoToken, 0, false, C.Idle, [], None, None, None), C.Dispatch(0, ""));
    var s' := ClientOf(C.InFlight, 1, false, C.Idle, [], None, None, None);
    assert s.calls[0].sent == [C.Attempt(None, None)] && s.calls[0] == s'.calls[0] && s.calls == s'.calls;
  }

  lemma {:induction false} RefreshBegins()
    ensures C.Step(ClientOf(C.InFlight, 1, false, C.Idle, [], None, None, None), C.Respond(0, C.Unauthorized))
              == ClientOf(C.Leading, 1, true, C.Queued, [], None, None, None)
    ensures C.Step(ClientOf(C.Leading, 1, true, C.Queued, [], None, None, None), C.Intercept(1))
              == ClientOf(C.Leading, 1, true, C.TokenWait(0), [C.Flying], None, Some(0), None)
  {
    var s := C.Step(ClientOf(C.InFlight, 1, false, C.Idle, [], None, None, None), C.Respond(0, C.Unauthorized));
    var s' := ClientOf(C.Leading, 1, true, C.Queued, [], None, None, None);
    assert s.calls[0].answers == [C.Unauthorized] && s.calls[0] == s'.calls[0] && s.calls == s'.calls;
  }

  lemma {:induction false} RefreshGoesOut()
    ensures C.Step(ClientOf(C.Leading, 1, true, C.TokenWait(0), [C.Flying], None, Some(0), None),
              C.FetchAnswer(0, true, Some("t")))
              == ClientOf(C.Leading, 1, true, C.TokenWait(0), [C.Landed(true, Some("t"))], Some("t"), Some(0), None)
    ensures C.Step(ClientOf(C.Leading, 1, true, C.TokenWait(0), [C.Landed(true, Some("t"))], Some("t"), Some(0), None),
              C.FetchFinally(0))
              == ClientOf(C.Leading, 1, true, C.TokenWait(0), [C.Done(true, Some("t"))], Some("t"), None, None)
    ensures C.Step(ClientOf(C.Leading, 1, true, C.TokenWait(0), [C.Done(true, Some("t"))], Some("t"), None, None),
              C.Dispatch(1, ""))
              == ClientOf(C.Leading, 1, true, C.InFlight, [C.Done(true, Some("t"))], Some("t"), None, Some("t"))
  {
    var s := C.Step(ClientOf(C.Leading, 1, true, C.TokenWait(0), [C.Done(true, Some("t"))], Some("t"), None, None),
                    C.Dispatch(1, ""));
    var s' := ClientOf(C.Leading, 1, true, C.InFlight, [C.Done(true, Some("t"))], Some("t"), None, Some("t"));
    assert s.calls[1].sent == [C.Attempt(None, Some("t"))] && s.calls[1] == s'.calls[1] && s.calls == s'.calls;
  }

  /** A run that nothing locks, and where it leads. */
  ghost predicate Leads(acts: seq<Action>, w: World) {
    Run(Init([PAGE]), acts) == w && NothingLocks(Init([PAGE]), acts)
  }

  lemma {:induction false} LeadsOn(acts: seq<Action>, w: World, a: Action, w': World)
    requires Leads(acts, w) && !Locks(w, a) && Step(w, a) == w'
    ensures Leads(acts + [a], w')
  {
    assert (acts + [a])[..|acts|] == acts;
  }

  const SERVER := R.World(map[USER := 0], {}, 1, map[], map[])

  function Before(client: C.State): World {
    World(client, SERVER, Some(0), map[], {})
  }

  lemma {:induction false} BrowserLeadsOn(acts: seq<Action>, client: C.State, b: C.Action, client': C.State)
    requires Leads(acts, Before(client)) && C.Enabled(client, b) && C.Step(client, b) == client'
    requires (b.Respond? || b.Dispatch?) ==> b.c < client.n
    ensures Leads(acts + [Browser(b)], Before(client'))
  {
    LeadsOn(acts, Before(client), Browser(b), Before(client'));
  }

  const ASKING := ClientOf(C.InFlight, 1, false, C.Idle, [], None, None, None)
  const TOKENLESS := ClientOf(C.Leading, 1, true, C.TokenWait(0), [C.Flying], None, Some(0), None)
  const READY := ClientOf(C.Leading, 1, true, C.TokenWait(0), [C.Done(true, Some("t"))], Some("t"), None, None)
  const REFRESHING := ClientOf(C.Leading, 1, true, C.InFlight, [C.Done(true, Some("t"))], Some("t"), None, Some("t"))

  lemma {:induction false} LeadsToAsking() returns (acts: seq<Action>)
    ensures Leads(acts, Before(ASKING))
  {
    RequestGoesOut();
    acts := [];
    assert Leads(acts, Before(C.Init([PAGE])));
    BrowserLeadsOn(acts, C.Init([PAGE]), C.Issue(0), ClientOf(C.Queued, 0, false, C.Idle, [], None, None, None));
    acts := acts + [Browser(C.Issue(0))];
    BrowserLeadsOn(acts, ClientOf(C.Queued, 0, false, C.Idle, [], None, None, None), C.Intercept(0),
      ClientOf(C.NoToken, 0, false, C.Idle, [], None, None, None));
    acts := acts + [Browser(C.Intercept(0))];
    BrowserLeadsOn(acts, ClientOf(C.NoToken, 0, false, C.Idle, [], None, None, None), C.Dispatch(0, ""), ASKING);
    acts := acts + [Browser(C.Dispatch(0, ""))];
  }

  lemma {:induction false} LeadsToTokenless(before: seq<Action>) returns (acts: seq<Action>)
    requires Leads(before, Before(ASKING))
    ensures Leads(acts, Before(TOKENLESS))
  {
    RefreshBegins();
    var queued := ClientOf(C.Leading, 1, true, C.Queued, [], None, None, None);
    BrowserLeadsOn(before, ASKING, C.Respond(0, C.Unauthorized), queued);
    acts := before + [Browser(C.Respond(0, C.Unauthorized))];
    BrowserLeadsOn(acts, queued, C.Intercept(1), TOKENLESS);
    acts := acts + [Browser(C.Intercept(1))];
  }

  lemma {:induction false} LeadsToReady(before: seq<Action>) returns (acts: seq<Action>)
    requires Leads(before, Before(TOKENLESS))
    ensures Leads(acts, Before(READY))
  {
    RefreshGoesOut();
    var landed := ClientOf(C.Leading, 1, true, C.TokenWait(0), [C.Landed(true, Some("t"))], Some("t"), Some(0), None);
    BrowserLeadsOn(before, TOKENLESS, C.FetchAnswer(0, true, Some("t")), landed);
    acts := before + [Browser(C.FetchAnswer(0, true, Some("t")))];
    BrowserLeadsOn(acts, landed, C.FetchFinally(0), READY);
    acts := acts + [Browser(C.FetchFinally(0))];
  }

  /** The refresh call has been sent, looked up, and saved. */
  const FOUND := World(REFRESHING, SERVER.(reqs := map[1 := R.Found(USER, 0)]), Some(0), map[1 := Some(0)], {})
  const SAVED := World(REFRESHING,
    SERVER.(stored := map[USER := 1], issued := 2, reqs := map[1 := R.Rotated(USER, 0, 1)]),
    Some(0), map[1 := Some(0)], {})

  lemma {:induction false} LeadsToFound(before: seq<Action>) returns (acts: seq<Action>)
    requires Leads(before, Before(READY))
    ensures Leads(acts, FOUND)
  {
    RefreshGoesOut();
    var sent := Before(REFRESHING).(carried := map[1 := Some(0)]);
    LeadsOn(before, Before(READY), Browser(C.Dispatch(1, "")), sent);
    acts := before + [Browser(C.Dispatch(1, ""))];
    LeadsOn(acts, sent, LookUp(1), FOUND);
    acts := acts + [LookUp(1)];
  }

  /** Both happen: one request that is answered 401 leads, with nothing locked, to a refresh that is looked up
      and not saved, and on to one that is saved and not answered, while the browser may give it up. */
  lemma {:induction false} LossesAreReachable() returns (found: seq<Action>, saved: seq<Action>)
    ensures Leads(found, FOUND) && Leads(saved, SAVED)
    ensures Enabled(FOUND, GiveUp(1)) && FOUND.server.reqs[1].Found? && IsStored(FOUND, FOUND.cookie)
    ensures Enabled(SAVED, GiveUp(1)) && SAVED.server.reqs[1].Rotated?
  {
    found := LeadsToAsking();
    found := LeadsToTokenless(found);
    found := LeadsToReady(found);
    found := LeadsToFound(found);
    LeadsOn(found, FOUND, Save(1), SAVED);
    saved := found + [Save(1)];
  }
}
