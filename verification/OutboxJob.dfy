/**
 One outbox job under the queue's retry policy (defaultJobOptions in src/queues/index.js): the handler is
 run again until it does not throw, at most three times. Any of its commands may fail, or be applied and
 reported as failed.
*/
module OutboxJob {
  import opened Outbox
  import opened OutboxWorker

  const ATTEMPTS := 3

  datatype JobEnd = Completed | GivenUp

  /** The attempt returns to the queue instead of throwing. */
  predicate Returns(ev: Event, faults: Faults) {
    faults.claim.Acked? && (Claimable(ev.status) ==> Succeeds(ev, faults))
  }

  function AfterAttempt(ev: Event, faults: Faults, now: int): Event {
    if Claimable(ev.status) then AfterRun(ev, faults, now) else ev
  }

  /** The event after the attempts of the job, and how the job ends. */
  function AfterJob(ev: Event, attempts: seq<Faults>, now: int): (Event, JobEnd)
    decreases |attempts|
  {
    if attempts == [] then (ev, GivenUp)
    else
      var ev' := AfterAttempt(ev, attempts[0], now);
      if Returns(ev, attempts[0]) then (ev', Completed) else AfterJob(ev', attempts[1..], now)
  }

  // ---------------------------------------------------------------- what one attempt does to a claimable event

  /** It stays claimable: the claim was refused, or the failure, real or reported, is recorded. */
  predicate StaysOpen(ev: Event, faults: Faults) {
    faults.claim.Refused? || (faults.claim.Acked? && !Succeeds(ev, faults) && faults.recorded)
  }

  /** It ends published: the publishing write was applied, and no failure is recorded over it. */
  predicate Publishes(ev: Event, faults: Faults) {
    Reaches(ev, faults) && Applied(faults.publish) && (faults.publish.Acked? || !faults.recorded)
  }

  /** It ends in `processing` with nobody working on it: nobody learnt of the claim, or an unpublished
      attempt could not record its failure. */
  predicate Loses(ev: Event, faults: Faults) {
    || faults.claim.Lost?
    || (faults.claim.Acked? && !faults.recorded && !(Reaches(ev, faults) && Applied(faults.publish)))
  }

  /** Every attempt does exactly one of the three. */
  lemma {:induction false} AttemptOutcome(ev: Event, faults: Faults, now: int)
    requires Claimable(ev.status)
    ensures var after := AfterAttempt(ev, faults, now);
            && (StaysOpen(ev, faults) <==> Claimable(after.status))
            && (Publishes(ev, faults) <==> after.status.Published?)
            && (Loses(ev, faults) <==> after.status.Processing?)
            && after.hasNotification == ev.hasNotification
            && after.attempts == ev.attempts + if Applied(faults.claim) then 1 else 0
  {
  }

  // ---------------------------------------------------------------- what a job does

  /** The first n attempts leave the event claimable. */
  predicate OpenFor(ev: Event, attempts: seq<Faults>, n: nat) {
    n <= |attempts| && forall i :: 0 <= i < n ==> StaysOpen(ev, attempts[i])
  }

  predicate PublishedBy(ev: Event, attempts: seq<Faults>, n: nat) {
    n < |attempts| && OpenFor(ev, attempts, n) && Publishes(ev, attempts[n])
  }

  predicate LostBy(ev: Event, attempts: seq<Faults>, n: nat) {
    n < |attempts| && OpenFor(ev, attempts, n) && Loses(ev, attempts[n])
  }

  /** One of the attempts from the n-th on comes back without an error: its claim is answered. */
  predicate SomeClaimAnswered(attempts: seq<Faults>, n: nat) {
    exists m :: n <= m < |attempts| && attempts[m].claim.Acked?
  }

  /** How many of the first n claims were applied. */
  function Claims(attempts: seq<Faults>, n: nat): nat
    requires n <= |attempts|
  {
    if n == 0 then 0 else Claims(attempts, n - 1) + if Applied(attempts[n - 1].claim) then 1 else 0
  }

  /** An event that is not claimable is left alone; the job ends with the first answered claim. */
  lemma {:induction false} ClosedStays(ev: Event, attempts: seq<Faults>, i: nat, now: int)
    requires !Claimable(ev.status) && i <= |attempts|
    ensures var (after, end) := AfterJob(ev, attempts[i..], now);
            after == ev && (end.Completed? <==> SomeClaimAnswered(attempts, i))
    decreases |attempts| - i
  {
    if i == |attempts| {
      assert attempts[i..] == [];
    } else {
      JobStep(ev, attempts, i, now);
      if !attempts[i].claim.Acked? {
        ClosedStays(ev, attempts, i + 1, now);
        assert SomeClaimAnswered(attempts, i) <==> SomeClaimAnswered(attempts, i + 1);
      }
    }
  }

  lemma {:induction false} JobStep(ev: Event, attempts: seq<Faults>, i: nat, now: int)
    requires i < |attempts|
    ensures AfterJob(ev, attempts[i..], now) ==
              if Returns(ev, attempts[i]) then (AfterAttempt(ev, attempts[i], now), Completed)
              else AfterJob(AfterAttempt(ev, attempts[i], now), attempts[i + 1..], now)
  {
    assert attempts[i..][0] == attempts[i] && attempts[i..][1..] == attempts[i + 1..];
  }

  /** What the attempts leave as long as they leave the event claimable. */
  lemma {:induction false} OpenRun(ev: Event, attempts: seq<Faults>, n: nat, now: int) returns (open: Event)
    requires Claimable(ev.status) && OpenFor(ev, attempts, n)
    ensures Claimable(open.status) && open.hasNotification == ev.hasNotification
    ensures open.attempts == ev.attempts + Claims(attempts, n)
    ensures AfterJob(ev, attempts, now) == AfterJob(open, attempts[n..], now)
  {
    if n == 0 {
      open := ev;
      assert attempts[0..] == attempts;
    } else {
      var before := OpenRun(ev, attempts, n - 1, now);
      SameKind(ev, before, attempts[n - 1]);
      AttemptOutcome(before, attempts[n - 1], now);
      JobStep(before, attempts, n - 1, now);
      open := AfterAttempt(before, attempts[n - 1], now);
    }
  }

  /** Only whether there is a notification decides what an attempt does. */
  lemma {:induction false} SameKind(ev: Event, other: Event, faults: Faults)
    requires ev.hasNotification == other.hasNotification
    ensures StaysOpen(ev, faults) == StaysOpen(other, faults) && Succeeds(ev, faults) == Succeeds(other, faults)
    ensures Publishes(ev, faults) == Publishes(other, faults) && Loses(ev, faults) == Loses(other, faults)
  {
  }

  /** The n-th attempt is the first that does not leave the event claimable: it decides what becomes of it. */
  lemma {:induction false} JobIsDecided(ev: Event, attempts: seq<Faults>, now: int, n: nat)
    requires Claimable(ev.status) && n < |attempts| && OpenFor(ev, attempts, n) && !StaysOpen(ev, attempts[n])
    ensures var (after, end) := AfterJob(ev, attempts, now);
            && (after.status.Published? <==> Publishes(ev, attempts[n]))
            && (after.status.Processing? <==> Loses(ev, attempts[n]))
            && !Claimable(after.status)
            && (end.Completed? <==> Succeeds(ev, attempts[n]) || SomeClaimAnswered(attempts, n + 1))
            && after.attempts == ev.attempts + Claims(attempts, n + 1)
  {
    var open := OpenRun(ev, attempts, n, now);
    SameKind(ev, open, attempts[n]);
    AttemptOutcome(open, attempts[n], now);
    JobStep(open, attempts, n, now);
    ClosedStays(AfterAttempt(open, attempts[n], now), attempts, n + 1, now);
  }

  /** No attempt decides: the event stays claimable for the sweep, and the job is a failed one. */
  lemma {:induction false} JobGivesUp(ev: Event, attempts: seq<Faults>, now: int)
    requires Claimable(ev.status) && OpenFor(ev, attempts, |attempts|)
    ensures var (after, end) := AfterJob(ev, attempts, now);
            Claimable(after.status) && end.GivenUp? && after.attempts == ev.attempts + Claims(attempts, |attempts|)
  {
    var open := OpenRun(ev, attempts, |attempts|, now);
    assert attempts[|attempts|..] == [];
  }

  /** The attempt that decides is the first that does not leave the event claimable. */
  lemma {:induction false} FirstDecision(ev: Event, attempts: seq<Faults>) returns (n: nat)
    ensures n <= |attempts| && OpenFor(ev, attempts, n)
    ensures n < |attempts| ==> !StaysOpen(ev, attempts[n])
  {
    n := 0;
    while n < |attempts| && StaysOpen(ev, attempts[n])
      invariant n <= |attempts| && OpenFor(ev, attempts, n)
    {
      n := n + 1;
    }
  }

  lemma {:induction false} OneDecision(ev: Event, attempts: seq<Faults>, n: nat, m: nat)
    requires n < |attempts| && OpenFor(ev, attempts, n) && !StaysOpen(ev, attempts[n])
    requires m < |attempts| && OpenFor(ev, attempts, m) && !StaysOpen(ev, attempts[m])
    ensures n == m
  {
  }

  /** What a job achieves, exactly, for every combination of failures and lost acknowledgements. It leaves
      its event published if and only if the first attempt not to leave it claimable publishes; in
      `processing`, where no attempt, job or sweep can claim it, if and only if that attempt loses it; and
      claimable if and only if there is no such attempt. The queue sees a completed job if and only if
      that attempt succeeds or a later one gets an answer to its claim, so also when the event is lost. */
  lemma {:induction false} JobOutcome(ev: Event, attempts: seq<Faults>, now: int)
    requires Claimable(ev.status)
    ensures var (after, end) := AfterJob(ev, attempts, now);
            && (after.status.Published? <==> exists n: nat :: PublishedBy(ev, attempts, n))
            && (after.status.Processing? <==> exists n: nat :: LostBy(ev, attempts, n))
            && (Claimable(after.status) <==> OpenFor(ev, attempts, |attempts|))
            && (end.Completed? <==> exists n: nat :: CompletedBy(ev, attempts, n))
  {
    var n := FirstDecision(ev, attempts);
    if n < |attempts| {
      JobIsDecided(ev, attempts, now, n);
      OneOfThree(ev, attempts[n]);
      forall m: nat | PublishedBy(ev, attempts, m) || LostBy(ev, attempts, m) || CompletedBy(ev, attempts, m)
        ensures m == n
      {
        OneOfThree(ev, attempts[m]);
        OneDecision(ev, attempts, n, m);
      }
      assert Publishes(ev, attempts[n]) ==> PublishedBy(ev, attempts, n);
      assert Loses(ev, attempts[n]) ==> LostBy(ev, attempts, n);
      var (_, end) := AfterJob(ev, attempts, now);
      assert end.Completed? <==> CompletedBy(ev, attempts, n);
    } else {
      JobGivesUp(ev, attempts, now);
      forall m: nat | m < |attempts|
        ensures StaysOpen(ev, attempts[m]) && !Publishes(ev, attempts[m]) && !Loses(ev, attempts[m])
      {
        OneOfThree(ev, attempts[m]);
      }
    }
  }

  /** The n-th attempt decides, and it or a later one returns to the queue. */
  predicate CompletedBy(ev: Event, attempts: seq<Faults>, n: nat) {
    && n < |attempts| && OpenFor(ev, attempts, n) && !StaysOpen(ev, attempts[n])
    && (Succeeds(ev, attempts[n]) || SomeClaimAnswered(attempts, n + 1))
  }

  lemma {:induction false} OneOfThree(ev: Event, faults: Faults)
    ensures StaysOpen(ev, faults) ==> !Publishes(ev, faults) && !Loses(ev, faults)
    ensures !StaysOpen(ev, faults) ==> (Publishes(ev, faults) <==> !Loses(ev, faults))
    ensures Succeeds(ev, faults) ==> Publishes(ev, faults)
  {
  }

  /** A job that the queue counts as completed although its event is lost: its claim was applied and the
      reply lost, and the retry found nothing to claim. */
  lemma {:induction false} LostClaimCompletes(ev: Event, rest: seq<Faults>, now: int)
    requires Claimable(ev.status)
    ensures var (after, end) := AfterJob(ev, [NO_FAULTS.(claim := Lost), NO_FAULTS] + rest, now);
            after.status.Processing? && end.Completed?
  {
    var attempts := [NO_FAULTS.(claim := Lost), NO_FAULTS] + rest;
    assert OpenFor(ev, attempts, 0) && Loses(ev, attempts[0]) && attempts[1].claim.Acked?;
    JobIsDecided(ev, attempts, now, 0);
  }

  // ---------------------------------------------------------------- the queue's loop

  /** One attempt, by what it does to the event. */
  method RunAttempt(worker: Worker, run: RunId, e: EventId, faults: Faults) returns (threw: bool)
    requires run !in worker.runs && e in worker.events
    modifies worker
    ensures worker.now == old(worker.now) && worker.runs == old(worker.runs)[run := Over]
    ensures worker.events == old(worker.events)[e := AfterAttempt(old(worker.events)[e], faults, worker.now)]
    ensures threw <==> !Returns(old(worker.events)[e], faults)
  {
    ghost var before := worker.View();
    var outcome := worker.PublishOutboxEvent(run, e, faults);
    HandleMeans(before, run, e, faults);
    assert before.events == before.events[e := before.events[e]];
    threw := outcome.Threw?;
  }

  /** The queue's loop around the handler, with no other run of the event in between. */
  method RunJob(worker: Worker, e: EventId, firstRun: RunId, attempts: seq<Faults>) returns (end: JobEnd)
    requires |attempts| == ATTEMPTS && e in worker.events
    requires forall run :: firstRun <= run < firstRun + ATTEMPTS ==> run !in worker.runs
    modifies worker
    ensures e in worker.events && worker.events == old(worker.events)[e := worker.events[e]]
    ensures (worker.events[e], end) == AfterJob(old(worker.events)[e], attempts, old(worker.now))
  {
    ghost var events, now := worker.events, worker.now;
    var i := 0;
    assert attempts[0..] == attempts && events == events[e := events[e]];
    while i < ATTEMPTS
      invariant 0 <= i <= ATTEMPTS
      invariant e in worker.events && worker.events == events[e := worker.events[e]] && worker.now == now
      invariant forall run :: firstRun + i <= run < firstRun + ATTEMPTS ==> run !in worker.runs
      invariant AfterJob(events[e], attempts, now) == AfterJob(worker.events[e], attempts[i..], now)
    {
      JobStep(worker.events[e], attempts, i, now);
      var threw := RunAttempt(worker, firstRun + i, e, attempts[i]);
      if !threw {
        return Completed;
      }
      i := i + 1;
    }
    return GivenUp;
  }

  /** The queue tries three times: a job whose attempts all fail and can record it ends as a failed job, with three
      more attempts and three more failures counted, and its event not due for a minute. */
  lemma {:induction false} ThreeFailuresGiveUp(ev: Event, attempts: seq<Faults>, now: int)
    requires Claimable(ev.status) && |attempts| == ATTEMPTS
    requires forall i :: 0 <= i < |attempts| ==>
               attempts[i].claim.Acked? && !Succeeds(ev, attempts[i]) && attempts[i].recorded
    ensures var (after, end) := AfterJob(ev, attempts, now);
            && after.status.Failed? && end.GivenUp? && after.attempts == ev.attempts + 3
            && after.failures == ev.failures + 3 && after.availableAt == now + 60 * 1000
  {
    var one := AfterAttempt(ev, attempts[0], now);
    var two := AfterAttempt(one, attempts[1], now);
    var three := AfterAttempt(two, attempts[2], now);
    assert attempts[0..] == attempts && attempts[3..] == [];
    JobStep(ev, attempts, 0, now);
    SameKind(ev, one, attempts[1]);
    JobStep(one, attempts, 1, now);
    SameKind(ev, two, attempts[2]);
    JobStep(two, attempts, 2, now);
  }
}
