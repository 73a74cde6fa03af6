/** The promises of the outbox workers over every interleaving, crash and lost acknowledgement. */
module OutboxProofs {
  import opened Outbox

  // ---------------------------------------------------------------- the invariant

  ghost predicate OneRunPerEvent(w: World) {
    forall r, s ::
      r in w.runs && s in w.runs && Alive(w.runs[r]) && Alive(w.runs[s]) && w.runs[r].e == w.runs[s].e ==>
        r == s
  }

  /** What the phase of a live run says about its event. */
  predicate RunFits(w: World, phase: Phase) {
    Alive(phase) ==>
      && phase.e in w.events
      && var ev := w.events[phase.e];
         && (ev.status.Processing? || (ev.status.Published? && phase.Failing?))
         && (phase.Notified? && ev.hasNotification ==> ev.notified)
         && (phase.Claimed? ==> ev.rounds < ev.attempts)
  }

  ghost predicate RunsFit(w: World) {
    forall r :: r in w.runs ==> RunFits(w, w.runs[r])
  }

  /** The books of one event. */
  predicate Balanced(ev: Event) {
    && ev.attempts == ev.failures + (if ev.status.Processing? || ev.status.Published? then 1 else 0)
    && ev.rounds <= ev.attempts
    && (ev.status.Published? && ev.hasNotification ==> ev.notified)
  }

  ghost predicate AllBalanced(w: World) {
    forall e :: e in w.events ==> Balanced(w.events[e])
  }

  predicate Distinct(held: seq<EventId>) {
    forall i, j :: 0 <= i < j < |held| ==> held[i] != held[j]
  }

  ghost predicate Inv(w: World) {
    OneRunPerEvent(w) && RunsFit(w) && AllBalanced(w) && Distinct(w.held)
  }

  lemma StepExclusive(w: World, a: Action)
    requires OneRunPerEvent(w) && RunsFit(w)
    ensures OneRunPerEvent(Step(w, a))
  {
    if a.Claim? && Enabled(w, a) {
      forall r | r in w.runs && Alive(w.runs[r]) ensures RunFits(w, w.runs[r]) {}
    }
  }

  lemma StepRuns(w: World, a: Action)
    requires OneRunPerEvent(w) && RunsFit(w) && AllBalanced(w)
    ensures RunsFit(Step(w, a))
  {
    var w' := Step(w, a);
    forall r | r in w'.runs ensures RunFits(w', w'.runs[r]) {
      if r in w.runs {
        assert RunFits(w, w.runs[r]);
        RunStaysFit(w, a, r);
      } else if a.e in w.events {
        assert Balanced(w.events[a.e]);
      }
    }
  }

  lemma RunStaysFit(w: World, a: Action, r: RunId)
    requires r in w.runs && RunFits(w, w.runs[r]) && OneRunPerEvent(w)
    ensures r in Step(w, a).runs && RunFits(Step(w, a), Step(w, a).runs[r])
  {
  }

  lemma StepBalanced(w: World, a: Action)
    requires RunsFit(w) && AllBalanced(w)
    ensures AllBalanced(Step(w, a))
  {
    var w' := Step(w, a);
    forall e | e in w'.events ensures Balanced(w'.events[e]) {
      if e in w.events { assert Balanced(w.events[e]); }
      if !a.Insert? && !a.Claim? && !a.Forget? && !a.Tick? && a.run in w.runs { assert RunFits(w, w.runs[a.run]); }
    }
  }

  lemma StepHeld(w: World, a: Action)
    requires Distinct(w.held)
    ensures Distinct(Step(w, a).held)
  {
  }

  lemma StepInv(w: World, a: Action)
    requires Inv(w)
    ensures Inv(Step(w, a))
  {
    StepExclusive(w, a);
    StepRuns(w, a);
    StepBalanced(w, a);
    StepHeld(w, a);
  }

  lemma {:induction false} RunInv(acts: seq<Action>)
    ensures Inv(Run(EMPTY, acts))
    decreases |acts|
  {
    if acts == [] {
    } else {
      RunInv(acts[..|acts| - 1]);
      StepInv(Run(EMPTY, acts[..|acts| - 1]), acts[|acts| - 1]);
    }
  }

  lemma ReachableInv(w: World)
    requires Reachable(w)
    ensures Inv(w)
  {
    var acts: seq<Action> :| w == Run(EMPTY, acts);
    RunInv(acts);
  }

  // ---------------------------------------------------------------- promises

  /** At most one live run works on an event, and only while the event is claimed (a run in its catch
      block may also find the event published, see PublishedIsLeftOnlyBy). */
  lemma ClaimIsExclusive(w: World, r: RunId, s: RunId)
    requires Reachable(w) && r in w.runs && s in w.runs && Alive(w.runs[r]) && Alive(w.runs[s])
               && w.runs[r].e == w.runs[s].e
    ensures r == s
    ensures w.runs[r].e in w.events
              && (w.events[w.runs[r].e].status.Processing?
                   || (w.events[w.runs[r].e].status.Published? && w.runs[r].Failing?))
  {
    ReachableInv(w);
    assert RunFits(w, w.runs[r]);
  }

  /** The books: every attempt is a recorded failure, except one that is under way, lost, or has
      succeeded; each attempt emits at most once; nothing is published without its notification. */
  lemma AttemptsAreAccounted(w: World, e: EventId)
    requires Reachable(w) && e in w.events
    ensures var ev := w.events[e];
            && ev.attempts == ev.failures + (if ev.status.Processing? || ev.status.Published? then 1 else 0)
            && ev.rounds <= ev.attempts
            && (ev.status.Published? && ev.hasNotification ==> ev.notified)
  {
    ReachableInv(w);
    assert Balanced(w.events[e]);
  }

  /** The notification queue never holds two jobs for one event. */
  lemma OneNotificationJob(w: World, i: nat, j: nat)
    requires Reachable(w) && i < |w.held| && j < |w.held| && w.held[i] == w.held[j]
    ensures i == j
  {
    ReachableInv(w);
  }

  /** A published event leaves `published` in exactly one way: the failure write of a run whose
      publishing write was applied and then reported as failed. */
  lemma PublishedIsLeftOnlyBy(w: World, a: Action, e: EventId)
    requires e in w.events && w.events[e].status.Published?
    ensures e in Step(w, a).events
    ensures !Step(w, a).events[e].status.Published? <==>
            a.MarkFailed? && a.applied && a.run in w.runs && w.runs[a.run] == Failing(e)
  {
  }

  /** No publishing write of the run was applied and then reported as failed. */
  predicate PublishAcksArrive(acts: seq<Action>) {
    forall i :: 0 <= i < |acts| && acts[i].MarkPublished? && acts[i].applied ==> acts[i].acknowledged
  }

  ghost predicate NobodyFailsPublished(w: World) {
    forall r :: r in w.runs && w.runs[r].Failing? && w.runs[r].e in w.events ==>
        !w.events[w.runs[r].e].status.Published?
  }

  lemma StepFailsNobody(w: World, a: Action)
    requires Inv(w) && NobodyFailsPublished(w) && (a.MarkPublished? && a.applied ==> a.acknowledged)
    ensures NobodyFailsPublished(Step(w, a))
    ensures forall e :: e in w.events && w.events[e].status.Published? ==>
              e in Step(w, a).events && Step(w, a).events[e].status.Published?
  {
    var w' := Step(w, a);
    forall r | r in w'.runs && w'.runs[r].Failing? && w'.runs[r].e in w'.events
      ensures !w'.events[w'.runs[r].e].status.Published?
    {
      if r in w.runs { assert RunFits(w, w.runs[r]); }
      if !a.Insert? && !a.Claim? && !a.Forget? && !a.Tick? && a.run in w.runs { assert RunFits(w, w.runs[a.run]); }
    }
    forall e | e in w.events && w.events[e].status.Published? ensures e in w'.events && w'.events[e].status.Published? {
      if !a.Insert? && !a.Claim? && !a.Forget? && !a.Tick? && a.run in w.runs { assert RunFits(w, w.runs[a.run]); }
    }
  }

  lemma {:induction false} AckedRunFailsNobody(acts: seq<Action>)
    requires PublishAcksArrive(acts)
    ensures NobodyFailsPublished(Run(EMPTY, acts))
    decreases |acts|
  {
    if acts == [] {
    } else {
      AckedRunFailsNobody(acts[..|acts| - 1]);
      RunInv(acts[..|acts| - 1]);
      StepFailsNobody(Run(EMPTY, acts[..|acts| - 1]), acts[|acts| - 1]);
    }
  }

  /** Where acknowledgements of publishing writes arrive, `published` is terminal. */
  lemma {:induction false} PublishedIsTerminal(acts: seq<Action>, more: seq<Action>, e: EventId)
    requires PublishAcksArrive(acts + more)
    requires e in Run(EMPTY, acts).events && Run(EMPTY, acts).events[e].status.Published?
    ensures e in Run(EMPTY, acts + more).events && Run(EMPTY, acts + more).events[e].status.Published?
    decreases |more|
  {
    if more == [] {
      assert acts + more == acts;
    } else {
      var front, last := more[..|more| - 1], more[|more| - 1];
      assert acts + more == acts + front + [last];
      assert (acts + more)[..|acts + front|] == acts + front && (acts + more)[|acts + front|] == last;
      PublishedIsTerminal(acts, front, e);
      AckedRunFailsNobody(acts + front);
      RunInv(acts + front);
      StepFailsNobody(Run(EMPTY, acts + front), last);
    }
  }

  /** Without that, one lost acknowledgement makes a published event run again: whatever its payload, it
      is announced twice. */
  lemma {:induction false} LostAckRepeatsEmission(w: World, e: EventId, r: RunId, s: RunId)
    requires e in w.events && Claimable(w.events[e].status)
    requires r !in w.runs && s !in w.runs && r != s
    ensures var claimed := Step(w, Claim(r, e, true, true));
            var w1 := Step(Step(Step(claimed, Emit(r)), Notify(r, true, true)), MarkPublished(r, true, false));
            var w2 := Step(Step(Step(w1, MarkFailed(r, true)), Claim(s, e, true, true)), Emit(s));
            && e in w1.events && w1.events[e].status.Published? && w1.events[e].rounds == w.events[e].rounds + 1
            && e in w2.events && w2.events[e].status.Processing? && w2.events[e].rounds == w.events[e].rounds + 2
  {
    var w1 := Step(Step(w, Claim(r, e, true, true)), Emit(r));
    assert w1.runs[r] == Emitted(e) && w1.events[e].rounds == w.events[e].rounds + 1;
    var w2 := Step(Step(w1, Notify(r, true, true)), MarkPublished(r, true, false));
    assert w2.runs[r] == Failing(e) && w2.events[e].status.Published?;
    var w3 := Step(w2, MarkFailed(r, true));
    assert w3.events[e].status.Failed? && s !in w3.runs;
  }

  // ---------------------------------------------------------------- lost claims

  /** Claimed, but no live run is working on it: its worker died, or never learnt of its claim. */
  ghost predicate Orphaned(w: World, e: EventId) {
    && e in w.events && w.events[e].status.Processing?
    && forall r :: r in w.runs && Alive(w.runs[r]) ==> w.runs[r].e != e
  }

  /** An orphaned event stays orphaned, and untouched, for ever: no duplicate job and no sweep can
      claim it. */
  lemma {:induction false} OrphansStayOrphaned(w: World, more: seq<Action>, e: EventId)
    requires Orphaned(w, e)
    ensures Orphaned(Run(w, more), e) && Run(w, more).events[e] == w.events[e]
    decreases |more|
  {
    if more == [] {
    } else {
      OrphansStayOrphaned(w, more[..|more| - 1], e);
      OrphanStep(Run(w, more[..|more| - 1]), more[|more| - 1], e);
    }
  }

  lemma OrphanStep(w: World, a: Action, e: EventId)
    requires Orphaned(w, e)
    ensures Orphaned(Step(w, a), e) && Step(w, a).events[e] == w.events[e]
  {
  }

  /** A live run can always be carried to `published` when its remaining writes succeed. */
  lemma LiveRunCanPublish(w: World, r: RunId)
    requires Reachable(w) && r in w.runs && w.runs[r].Claimed?
    ensures var e := w.runs[r].e;
            var w' := Step(Step(Step(w, Emit(r)), Notify(r, true, true)), MarkPublished(r, true, true));
            && e in w.events && e in w'.events && w'.events[e].status.Published?
            && w'.events[e].rounds == w.events[e].rounds + 1 && w'.events[e].attempts == w.events[e].attempts
            && (w.events[e].hasNotification ==> e in w'.held)
  {
    ReachableInv(w);
    assert RunFits(w, w.runs[r]);
    var e := w.runs[r].e;
    var w1 := Step(w, Emit(r));
    assert w1.runs[r] == Emitted(e);
    var w2 := Step(w1, Notify(r, true, true));
    assert w2.runs[r] == Notified(e) && e in w2.events;
    if w.events[e].hasNotification && e !in w1.held { assert w2.held[|w1.held|] == e; }
  }

  // ---------------------------------------------------------------- what an event keeps

  /** An event keeps when it was made and what for; only a recorded failure moves the time it is due, and only to
      a later one. */
  predicate Kept(o: Event, n: Event) {
    && n.createdAt == o.createdAt && n.hasNotification == o.hasNotification
    && n.failures >= o.failures && n.availableAt >= o.availableAt
    && (n.failures == o.failures ==> n.availableAt == o.availableAt)
  }

  /** No event waits for longer than a minute. */
  ghost predicate WaitsFit(w: World) {
    forall e :: e in w.events ==> w.events[e].availableAt <= w.now + 60 * 1000
  }

  lemma {:induction false} StepKeeps(w: World, a: Action, e: EventId)
    requires e in w.events && w.events[e].availableAt <= w.now + 60 * 1000
    ensures e in Step(w, a).events && Kept(w.events[e], Step(w, a).events[e]) && w.now <= Step(w, a).now
  {
  }

  lemma {:induction false} StepWaits(w: World, a: Action)
    requires WaitsFit(w)
    ensures WaitsFit(Step(w, a)) && w.now <= Step(w, a).now
  {
  }

  lemma {:induction false} RunWaits(w: World, acts: seq<Action>)
    requires WaitsFit(w)
    ensures WaitsFit(Run(w, acts)) && w.now <= Run(w, acts).now
    decreases |acts|
  {
    if acts == [] {
    } else {
      RunWaits(w, acts[..|acts| - 1]);
      StepWaits(Run(w, acts[..|acts| - 1]), acts[|acts| - 1]);
    }
  }

  lemma {:induction false} RunKeeps(w: World, more: seq<Action>, e: EventId)
    requires WaitsFit(w) && e in w.events
    ensures e in Run(w, more).events && Kept(w.events[e], Run(w, more).events[e])
    decreases |more|
  {
    if more == [] {
    } else {
      RunKeeps(w, more[..|more| - 1], e);
      RunWaits(w, more[..|more| - 1]);
      StepKeeps(Run(w, more[..|more| - 1]), more[|more| - 1], e);
    }
  }

  lemma {:induction false} ReachableWaits(w: World)
    requires Reachable(w)
    ensures WaitsFit(w)
  {
    var acts: seq<Action> :| w == Run(EMPTY, acts);
    RunWaits(EMPTY, acts);
  }

  /** A recorded failure makes its event claimable and not due for a minute, whatever happens then. */
  lemma {:induction false} FailureWaitsAMinute(w: World, run: RunId, more: seq<Action>)
    requires Reachable(w) && Enabled(w, MarkFailed(run, true))
    ensures var e, w' := w.runs[run].e, Step(w, MarkFailed(run, true));
            && e in w'.events && w'.events[e].status.Failed? && w'.events[e].availableAt == w.now + 60 * 1000
            && e in Run(w', more).events && Run(w', more).events[e].availableAt >= w.now + 60 * 1000
  {
    ReachableWaits(w);
    StepWaits(w, MarkFailed(run, true));
    RunKeeps(Step(w, MarkFailed(run, true)), more, w.runs[run].e);
  }

  /** A new event keeps its creation time and its purpose, and is due at once until it fails for the first time. */
  lemma {:induction false} InsertionIsKept(w: World, e: EventId, hasNotification: bool, more: seq<Action>)
    requires Reachable(w) && Enabled(w, Insert(e, hasNotification))
    ensures var v := Run(Step(w, Insert(e, hasNotification)), more);
            && e in v.events && v.events[e].createdAt == w.now && v.events[e].hasNotification == hasNotification
            && w.now <= v.now && (v.events[e].failures == 0 ==> v.events[e].availableAt == w.now)
  {
    ReachableWaits(w);
    var w' := Step(w, Insert(e, hasNotification));
    StepWaits(w, Insert(e, hasNotification));
    RunKeeps(w', more, e);
    RunWaits(w', more);
  }

  ghost predicate Wanted(w: World) {
    && (forall e :: e in w.held ==> e in w.events && w.events[e].hasNotification)
    && (forall e :: e in w.events && w.events[e].notified ==> w.events[e].hasNotification)
  }

  lemma {:induction false} StepWanted(w: World, a: Action)
    requires Wanted(w)
    ensures Wanted(Step(w, a))
  {
  }

  lemma {:induction false} RunWanted(acts: seq<Action>)
    ensures Wanted(Run(EMPTY, acts))
    decreases |acts|
  {
    if acts == [] {
    } else {
      RunWanted(acts[..|acts| - 1]);
      StepWanted(Run(EMPTY, acts[..|acts| - 1]), acts[|acts| - 1]);
    }
  }

  /** Only events that carry a notification ever get a notification job. */
  lemma {:induction false} NotificationsAreWanted(w: World, e: EventId)
    requires Reachable(w) && (e in w.held || (e in w.events && w.events[e].notified))
    ensures e in w.events && w.events[e].hasNotification
  {
    var acts: seq<Action> :| w == Run(EMPTY, acts);
    RunWanted(acts);
  }

  /** How a run begins: its claim is made exactly if it reaches the database and finds the event claimable, and the
      run goes on exactly if it also learns of it. */
  lemma {:induction false} ClaimsAreAnswered(w: World, run: RunId, e: EventId, applied: bool, acknowledged: bool)
    requires Enabled(w, Claim(run, e, applied, acknowledged))
    ensures var w' := Step(w, Claim(run, e, applied, acknowledged));
            var isOpen := e in w.events && (w.events[e].status.Pending? || w.events[e].status.Failed?);
            && run in w'.runs && w'.held == w.held
            && (w'.runs[run] == Claimed(e) <==> isOpen && acknowledged)
            && (w'.runs[run].Over? <==> !(isOpen && acknowledged))
            && (isOpen && applied ==>
                 w'.events[e].status.Processing? && w'.events[e].attempts == w.events[e].attempts + 1)
            && (!(isOpen && applied) ==> w'.events == w.events)
  {
  }

  /** How a live run ends its try block: an exception, and a refused or unacknowledged command, lead to the catch
      block, which alone records the failure; an acknowledged publishing write ends the run. */
  lemma {:induction false} ErrorsAreCaught(w: World, run: RunId, applied: bool, acknowledged: bool)
    ensures Enabled(w, Throw(run)) ==>
              Step(w, Throw(run)).runs[run] == Failing(w.runs[run].e) && Step(w, Throw(run)).events == w.events
    ensures Enabled(w, Notify(run, applied, acknowledged)) ==>
              var w' := Step(w, Notify(run, applied, acknowledged));
              w'.runs[run].Failing? <==> w.events[w.runs[run].e].hasNotification && !acknowledged
    ensures Enabled(w, MarkPublished(run, applied, acknowledged)) ==>
              var w' := Step(w, MarkPublished(run, applied, acknowledged));
              (w'.runs[run].Failing? <==> !acknowledged) && (w'.runs[run].Over? <==> acknowledged)
  {
  }

  /** What goes on besides: time passes, which changes no event, and the queue forgets one job, and no other. */
  lemma {:induction false} TimeAndRetention(w: World, delta: nat, i: nat)
    ensures Step(w, Tick(delta)) == w.(now := w.now + delta)
    ensures i < |w.held| ==>
              Step(w, Forget(i)).events == w.events && Step(w, Forget(i)).held == w.held[..i] + w.held[i + 1..]
  {
  }
}
