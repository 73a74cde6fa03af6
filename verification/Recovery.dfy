/**
 The recovery sweep (src/jobs/recoveryJobs.js) and the queue it feeds: find the oldest due events, at
 most 100, add a job for each, let the workers drain the queue.

 `held` are the ids of jobs the queue still keeps, waiting ones and retained ones; adding a job under a
 held id is ignored. How long finished jobs are retained is the queue's business and left open.
*/
module Recovery {
  import opened Outbox
  import Worker = OutboxWorker
  import Proofs = OutboxProofs

  const BATCH_LIMIT := 100

  function Min(a: nat, b: nat): nat {
    if a <= b then a else b
  }

  predicate IsDue(ev: Event, now: int) {
    Claimable(ev.status) && ev.availableAt <= now
  }

  function Due(events: map<EventId, Event>, now: int): set<EventId> {
    set e | e in events && IsDue(events[e], now)
  }

  predicate NoRepeats(batch: seq<EventId>) {
    forall i, j :: 0 <= i < j < |batch| ==> batch[i] != batch[j]
  }

  function CreatedAt(events: map<EventId, Event>, e: EventId): int {
    if e in events then events[e].createdAt else 0
  }

  /** An answer of the sweep's query: due events without repetition, sorted by creation time, as many as
      there are up to the limit, and none left out that is older than one chosen. */
  ghost predicate OldestDue(events: map<EventId, Event>, now: int, batch: seq<EventId>) {
    && NoRepeats(batch)
    && (forall e :: e in batch ==> e in Due(events, now))
    && |batch| == Min(BATCH_LIMIT, |Due(events, now)|)
    && (forall i, j :: 0 <= i < j < |batch| ==> CreatedAt(events, batch[i]) <= CreatedAt(events, batch[j]))
    && (forall e, b :: e in Due(events, now) && e !in batch && b in batch ==>
         CreatedAt(events, b) <= CreatedAt(events, e))
  }

  /** A run of the worker on which nothing fails. */
  function Publish(ev: Event): (published: Event)
    ensures published.status == Published && published.createdAt == ev.createdAt
  {
    Worker.AfterRun(ev, Worker.NO_FAULTS, 0)
  }

  /** An event after the drain, according to whether it had a job. */
  function Drained(ev: Event, hasJob: bool): Event {
    if hasJob && Claimable(ev.status) then Publish(ev) else ev
  }

  /** The events after a sweep and a faultless drain of the jobs it could add. */
  function AfterRound(events: map<EventId, Event>, held: set<EventId>, batch: seq<EventId>)
    : (after: map<EventId, Event>)
    ensures after.Keys == events.Keys
    ensures forall e :: e in events ==> after[e] == Drained(events[e], e in batch && e !in held)
  {
    map e | e in events :: Drained(events[e], e in batch && e !in held)
  }

  function IdsOf(batch: seq<EventId>): (ids: set<EventId>)
    ensures forall e :: e in ids <==> e in batch
  {
    set e | e in batch
  }

  /** The events of the batch that get a job, in the order of the batch. */
  function Queued(batch: seq<EventId>, blocked: set<EventId>): (ids: seq<EventId>)
    ensures forall e :: e in ids <==> e in batch && e !in blocked
  {
    if batch == [] then []
    else
      var k := |batch| - 1;
      Queued(batch[..k], blocked) + if batch[k] in blocked then [] else [batch[k]]
  }

  lemma {:induction false} QueuedNext(batch: seq<EventId>, i: nat, blocked: set<EventId>)
    requires i < |batch|
    ensures Queued(batch[..i + 1], blocked) ==
              Queued(batch[..i], blocked) + if batch[i] in blocked then [] else [batch[i]]
  {
    assert batch[..i + 1][..i] == batch[..i];
  }

  lemma {:induction false} IdsNext(batch: seq<EventId>, i: nat, failing: set<EventId>)
    requires i < |batch|
    ensures IdsOf(batch[..i + 1]) - failing ==
              (IdsOf(batch[..i]) - failing) + if batch[i] in failing then {} else {batch[i]}
  {
    assert batch[..i + 1] == batch[..i] + [batch[i]];
  }

  /** One more event of the batch: what is held, and what waits, once it has been queued. */
  lemma {:induction false} SweepNext(before: set<EventId>, batch: seq<EventId>, i: nat, failing: set<EventId>,
      held: set<EventId>, waiting: seq<EventId>)
    requires NoRepeats(batch) && i < |batch|
    requires held == before + (IdsOf(batch[..i]) - failing) && waiting == Queued(batch[..i], before + failing)
    ensures var e := batch[i];
            && held + (if e in failing then {} else {e}) == before + (IdsOf(batch[..i + 1]) - failing)
            && (if e in failing || e in held then waiting else waiting + [e]) ==
                 Queued(batch[..i + 1], before + failing)
  {
    assert batch[i] !in batch[..i];
    IdsNext(batch, i, failing);
    QueuedNext(batch, i, before + failing);
  }

  // ---------------------------------------------------------------- the sweep in place

  class Service {
    var events: map<EventId, Event>
    var waiting: seq<EventId>
    var held: set<EventId>

    ghost predicate Valid()
      reads this
    {
      NoRepeats(waiting) && (forall e :: e in waiting ==> e in held)
    }

    constructor (events: map<EventId, Event>, held: set<EventId>)
      ensures Valid() && this.events == events && this.held == held && waiting == []
    {
      this.events := events;
      this.held := held;
      waiting := [];
    }

    /** enqueueOutboxEvent: the job id is derived from the event id. An add that fails is only logged. */
    method EnqueueOutboxEvent(e: EventId, fails: bool)
      requires Valid()
      modifies this`waiting, this`held
      ensures Valid()
      ensures held == old(held) + if fails then {} else {e}
      ensures waiting == if fails || e in old(held) then old(waiting) else old(waiting) + [e]
    {
      if fails {
        return;
      }
      if e !in held {
        waiting := waiting + [e];
        held := held + {e};
      }
      assert held == old(held) + {e};
    }

    /** recoverPendingOutboxEvents, for the answer `batch` of its query; the adds of `failing` events fail. */
    method RecoverPendingOutboxEvents(ghost now: int, batch: seq<EventId>, failing: set<EventId>)
      returns (discovered: nat)
      requires Valid() && waiting == [] && OldestDue(events, now, batch)
      modifies this`waiting, this`held
      ensures Valid() && discovered == |batch|
      ensures held == old(held) + (IdsOf(batch) - failing)
      ensures waiting == Queued(batch, old(held) + failing)
    {
      var i := 0;
      while i < |batch|
        invariant 0 <= i <= |batch| && Valid()
        invariant held == old(held) + (IdsOf(batch[..i]) - failing)
        invariant waiting == Queued(batch[..i], old(held) + failing)
      {
        SweepNext(old(held), batch, i, failing, held, waiting);
        EnqueueOutboxEvent(batch[i], batch[i] in failing);
        i := i + 1;
      }
      assert batch[..i] == batch;
      discovered := |batch|;
    }

    /** The workers take every waiting job; nothing fails. */
    method Drain()
      requires Valid()
      modifies this`events, this`waiting
      ensures Valid() && waiting == []
      ensures events.Keys == old(events).Keys
      ensures forall e :: e in old(events) ==>
                events[e] == Drained(old(events)[e], e in old(waiting))
    {
      ghost var done: set<EventId> := {};
      while waiting != []
        invariant Valid()
        invariant forall e :: e in waiting ==> e !in done
        invariant forall e :: e in old(waiting) <==> e in done || e in waiting
        invariant events.Keys == old(events).Keys
        invariant forall e :: e in old(events) ==> events[e] == Drained(old(events)[e], e in done)
        decreases |waiting|
      {
        var e := waiting[0];
        if e in events && Claimable(events[e].status) {
          events := events[e := Publish(events[e])];
        }
        assert waiting == [e] + waiting[1..];
        assert e !in waiting[1..];
        waiting := waiting[1..];
        done := done + {e};
      }
    }

    /** One round: a sweep, then a drain. For the events an add that fails is like an id that is held. */
    method Round(ghost now: int, batch: seq<EventId>, failing: set<EventId>)
      requires Valid() && waiting == [] && OldestDue(events, now, batch)
      modifies this
      ensures Valid() && waiting == []
      ensures events == AfterRound(old(events), old(held) + failing, batch)
      ensures held == old(held) + (IdsOf(batch) - failing)
    {
      var _ := RecoverPendingOutboxEvents(now, batch, failing);
      Drain();
    }
  }

  // ---------------------------------------------------------------- what a round achieves

  lemma {:induction false} BatchSize(batch: seq<EventId>)
    requires NoRepeats(batch)
    ensures |IdsOf(batch)| == |batch|
  {
    if batch == [] {
    } else {
      var k := |batch| - 1;
      BatchSize(batch[..k]);
      assert batch == batch[..k] + [batch[k]];
      assert IdsOf(batch) == IdsOf(batch[..k]) + {batch[k]};
    }
  }

  /** A round publishes exactly those of the oldest due events whose job id the queue does not hold. */
  lemma RoundPublishesUnheld(events: map<EventId, Event>, held: set<EventId>, now: int, batch: seq<EventId>)
    requires OldestDue(events, now, batch)
    ensures Due(AfterRound(events, held, batch), now) == Due(events, now) - (IdsOf(batch) - held)
    ensures forall e :: e in events ==>
              (e in batch && e !in held <==>
                !events[e].status.Published? && AfterRound(events, held, batch)[e].status.Published?)
  {
  }

  /** With no due event's id held, a round removes min(100, n) of the n due events, oldest first, and
      leaves no due event with a held id. */
  lemma RoundDrains(events: map<EventId, Event>, held: set<EventId>, now: int, batch: seq<EventId>)
    requires OldestDue(events, now, batch) && held !! Due(events, now)
    ensures var after := AfterRound(events, held, batch);
            && |Due(after, now)| == |Due(events, now)| - Min(100, |Due(events, now)|)
            && Due(after, now) <= Due(events, now)
            && (forall b, e :: b in Due(events, now) - Due(after, now) && e in Due(after, now) ==>
                 CreatedAt(events, b) <= CreatedAt(events, e))
            && held + IdsOf(batch) !! Due(after, now)
  {
    RoundPublishesUnheld(events, held, now, batch);
    BatchSize(batch);
    var after := AfterRound(events, held, batch);
    assert IdsOf(batch) <= Due(events, now);
    assert IdsOf(batch) - held == IdsOf(batch);
    assert Due(after, now) == Due(events, now) - IdsOf(batch);
    assert Due(events, now) - Due(after, now) == IdsOf(batch);
    assert |Due(events, now) - IdsOf(batch)| == |Due(events, now)| - |IdsOf(batch)|;
  }

  /** A round is idle exactly when every event of the batch is blocked by a held id. */
  lemma RoundIsIdleIff(events: map<EventId, Event>, held: set<EventId>, now: int, batch: seq<EventId>)
    requires OldestDue(events, now, batch)
    ensures AfterRound(events, held, batch) == events <==> IdsOf(batch) <= held
  {
    var after := AfterRound(events, held, batch);
    RoundPublishesUnheld(events, held, now, batch);
    assert forall e :: e in batch ==> e in Due(events, now) && e in events && !events[e].status.Published?;
    if IdsOf(batch) <= held { assert after == events; }
  }

  lemma {:induction false} Smaller(a: set<EventId>, b: set<EventId>)
    requires a <= b
    ensures |a| <= |b|
  {
    assert b == a + (b - a);
  }

  // ---------------------------------------------------------------- whole backlogs

  /** The state after a sequence of rounds, each with the answer its query gave. */
  function AfterRounds(events: map<EventId, Event>, held: set<EventId>, batches: seq<seq<EventId>>)
    : (map<EventId, Event>, set<EventId>)
    decreases |batches|
  {
    if batches == [] then (events, held)
    else
      var (before, heldBefore) := AfterRounds(events, held, batches[..|batches| - 1]);
      (AfterRound(before, heldBefore, batches[|batches| - 1]), heldBefore + IdsOf(batches[|batches| - 1]))
  }

  /** Every batch answers the query at the time of its round. */
  ghost predicate Answered(events: map<EventId, Event>, held: set<EventId>, times: seq<int>,
      batches: seq<seq<EventId>>)
    decreases |batches|
  {
    && |times| == |batches|
    && (batches == [] ||
        (var k := |batches| - 1;
         && Answered(events, held, times[..k], batches[..k])
         && OldestDue(AfterRounds(events, held, batches[..k]).0, times[k], batches[k])))
  }

  /** The rounds are answered, and no event falls due in between. */
  ghost predicate SweepsAnswer(events: map<EventId, Event>, held: set<EventId>, times: seq<int>,
      batches: seq<seq<EventId>>)
  {
    && Answered(events, held, times, batches)
    && forall i :: 0 <= i < |times| ==> Due(events, times[i]) == Due(events, times[0])
  }

  lemma DueIsStable(events: map<EventId, Event>, after: map<EventId, Event>, t: int, u: int)
    requires Due(events, t) == Due(events, u) && after.Keys == events.Keys
    requires forall e :: e in events ==> after[e] == events[e] || after[e].status.Published?
    ensures Due(after, t) == Due(after, u)
  {
    forall e | e in events ensures e in Due(after, t) <==> e in Due(after, u) {
      assert after[e] == events[e] ==>
          (e in Due(after, t) <==> e in Due(events, t)) && (e in Due(after, u) <==> e in Due(events, u));
    }
  }

  lemma {:induction false} RoundsOnlyPublish(events: map<EventId, Event>, held: set<EventId>,
      batches: seq<seq<EventId>>)
    ensures var after := AfterRounds(events, held, batches).0;
            after.Keys == events.Keys && forall e :: e in events ==> after[e] == events[e] || after[e].status.Published?
    decreases |batches|
  {
    if batches == [] {
    } else {
      RoundsOnlyPublish(events, held, batches[..|batches| - 1]);
    }
  }

  /** What is left is younger than what was published. */
  ghost predicate OldestFirst(events: map<EventId, Event>, due: set<EventId>, left: set<EventId>) {
    left <= due && forall b, e :: b in due - left && e in left ==> CreatedAt(events, b) <= CreatedAt(events, e)
  }

  lemma OldestFirstTrans(events: map<EventId, Event>, before: map<EventId, Event>, due: set<EventId>,
      mid: set<EventId>, left: set<EventId>)
    requires OldestFirst(events, due, mid) && OldestFirst(before, mid, left)
    requires forall e :: e in mid ==> CreatedAt(before, e) == CreatedAt(events, e)
    ensures OldestFirst(events, due, left)
  {
    forall b, e | b in due - left && e in left ensures CreatedAt(events, b) <= CreatedAt(events, e) {
      if b in mid { assert b in mid - left; } else { assert b in due - mid && e in mid; }
    }
  }

  /** After k rounds, max(0, n - 100k) of the n due events are left, all the younger ones. */
  lemma {:induction false} RoundsDrain(events: map<EventId, Event>, held: set<EventId>, times: seq<int>,
      batches: seq<seq<EventId>>)
    requires |times| > 0 && SweepsAnswer(events, held, times, batches) && held !! Due(events, times[0])
    ensures var (after, heldAfter) := AfterRounds(events, held, batches);
            var due := Due(events, times[0]);
            && |Due(after, times[0])| == |due| - Min(BATCH_LIMIT * |batches|, |due|)
            && heldAfter !! Due(after, times[0])
            && OldestFirst(events, due, Due(after, times[0]))
    decreases |batches|
  {
    var k, now := |batches| - 1, times[0];
    var (before, heldBefore) := AfterRounds(events, held, batches[..k]);
    if k > 0 {
      RoundsDrain(events, held, times[..k], batches[..k]);
    } else {
      assert batches[..k] == [];
    }
    LastRoundDrains(events, held, now, times[k], batches);
    OldestFirstTrans(events, before, Due(events, now), Due(before, now),
        Due(AfterRounds(events, held, batches).0, now));
  }

  lemma LastRoundDrains(events: map<EventId, Event>, held: set<EventId>, now: int, time: int,
      batches: seq<seq<EventId>>)
    requires |batches| > 0 && Due(events, time) == Due(events, now)
    requires var (before, heldBefore) := AfterRounds(events, held, batches[..|batches| - 1]);
             OldestDue(before, time, batches[|batches| - 1]) && heldBefore !! Due(before, now)
    ensures var (before, _) := AfterRounds(events, held, batches[..|batches| - 1]);
            var (after, heldAfter) := AfterRounds(events, held, batches);
            && |Due(after, now)| == |Due(before, now)| - Min(BATCH_LIMIT, |Due(before, now)|)
            && heldAfter !! Due(after, now) && OldestFirst(before, Due(before, now), Due(after, now))
            && (forall e :: e in Due(before, now) ==> CreatedAt(before, e) == CreatedAt(events, e))
  {
    var k := |batches| - 1;
    var (before, heldBefore) := AfterRounds(events, held, batches[..k]);
    RoundsOnlyPublish(events, held, batches[..k]);
    RoundsOnlyPublish(events, held, batches);
    DueIsStable(events, before, time, now);
    DueIsStable(events, AfterRounds(events, held, batches).0, time, now);
    RoundDrains(before, heldBefore, time, batches[k]);
  }

  /** n due events are all published after ceil(n / 100) rounds. */
  lemma BacklogIsDrained(events: map<EventId, Event>, held: set<EventId>, times: seq<int>, batches: seq<seq<EventId>>)
    requires |times| > 0 && SweepsAnswer(events, held, times, batches) && held !! Due(events, times[0])
    requires 100 * |batches| >= |Due(events, times[0])|
    ensures forall e :: e in Due(events, times[0]) ==>
              e in AfterRounds(events, held, batches).0 && AfterRounds(events, held, batches).0[e].status.Published?
  {
    RoundsDrain(events, held, times, batches);
    RoundsOnlyPublish(events, held, batches);
    var after := AfterRounds(events, held, batches).0;
    assert Due(after, times[0]) == {};
    assert forall e :: e in after && IsDue(after[e], times[0]) ==> e in Due(after, times[0]);
  }

  // ---------------------------------------------------------------- rounds while events keep coming

  /** A sweep as it happens: what is stored at its time, the ids under which no job can be added, because the
      queue holds them or the add fails, and the answer of its query. */
  datatype Sweep = Sweep(events: map<EventId, Event>, held: set<EventId>, now: int, batch: seq<EventId>)

  function After(s: Sweep): map<EventId, Event> {
    AfterRound(s.events, s.held, s.batch)
  }

  /** What is not published and may be taken before e. */
  function Ahead(events: map<EventId, Event>, e: EventId): set<EventId> {
    set x | x in events && x != e && !events[x].status.Published? && CreatedAt(events, x) <= CreatedAt(events, e)
  }

  predicate IsPublished(events: map<EventId, Event>, e: EventId) {
    e in events && events[e].status.Published?
  }

  /** Between two sweeps anything may happen to the other events, except that a published event stays
      published and that events inserted later are younger than e. */
  ghost predicate Evolves(before: map<EventId, Event>, later: map<EventId, Event>, e: EventId) {
    && (forall x :: x in before ==> x in later && later[x].createdAt == before[x].createdAt)
    && (forall x :: IsPublished(before, x) ==> IsPublished(later, x))
    && (forall x :: x in later && x !in before && e in before ==> later[x].createdAt > before[e].createdAt)
  }

  /** The blocked events that may be taken before e: each takes a place of the batch and gets no job. */
  function BlockedAhead(s: Sweep, e: EventId): set<EventId> {
    set x | x in Due(s.events, s.now) && x in s.held && x != e && CreatedAt(s.events, x) <= CreatedAt(s.events, e)
  }

  /** The sweep is answered, and unless e is published it is due, its own job id is free, and at most
      `blocked` blocked events may be taken before it. */
  ghost predicate Serves(s: Sweep, e: EventId, blocked: nat) {
    && OldestDue(s.events, s.now, s.batch)
    && (IsPublished(s.events, e) ||
        (e in Due(s.events, s.now) && e !in s.held && |BlockedAhead(s, e)| <= blocked))
  }

  ghost predicate Sweeps(sweeps: seq<Sweep>, e: EventId, blocked: nat) {
    && (forall i :: 0 <= i < |sweeps| ==> Serves(sweeps[i], e, blocked))
    && (forall i, j :: 0 <= i < j < |sweeps| && j == i + 1 ==> Evolves(After(sweeps[i]), sweeps[j].events, e))
  }

  /** A sweep publishes e, or else all of a full batch of events ahead of it but the blocked ones. */
  lemma {:induction false} SweepServes(s: Sweep, e: EventId, blocked: nat)
    requires Serves(s, e, blocked)
    ensures IsPublished(After(s), e) || |Ahead(After(s), e)| + BATCH_LIMIT <= |Ahead(s.events, e)| + blocked
  {
    if !IsPublished(s.events, e) && e !in s.batch {
      FullBatchAhead(s, e);
      BatchSize(s.batch);
      var free := IdsOf(s.batch) - s.held;
      Smaller(IdsOf(s.batch) * s.held, BlockedAhead(s, e));
      assert IdsOf(s.batch) == free + IdsOf(s.batch) * s.held;
      Smaller(Ahead(After(s), e), Ahead(s.events, e) - free);
      assert |Ahead(s.events, e) - free| == |Ahead(s.events, e)| - |free|;
    }
  }

  lemma {:induction false} FullBatchAhead(s: Sweep, e: EventId)
    requires OldestDue(s.events, s.now, s.batch) && e in Due(s.events, s.now) && e !in s.batch
    ensures |s.batch| == BATCH_LIMIT && IdsOf(s.batch) <= Ahead(s.events, e)
    ensures IdsOf(s.batch) * s.held <= BlockedAhead(s, e)
    ensures Ahead(After(s), e) <= Ahead(s.events, e) - (IdsOf(s.batch) - s.held)
  {
    var due := Due(s.events, s.now);
    BatchSize(s.batch);
    assert IdsOf(s.batch) <= due - {e};
    Smaller(IdsOf(s.batch), due - {e});
    assert |due - {e}| == |due| - 1;
  }

  lemma {:induction false} AheadShrinks(before: map<EventId, Event>, later: map<EventId, Event>, e: EventId)
    requires Evolves(before, later, e) && e in before
    ensures |Ahead(later, e)| <= |Ahead(before, e)|
  {
    forall x | x in Ahead(later, e) ensures x in Ahead(before, e) {
      assert IsPublished(before, x) ==> IsPublished(later, x);
    }
    Smaller(Ahead(later, e), Ahead(before, e));
  }

  /** While at most B blocked events are ahead of e, k sweeps publish e or (100 - B) k of the events that
      were ahead of it. */
  lemma {:induction false} SweepsProgress(sweeps: seq<Sweep>, e: EventId, blocked: nat)
    requires sweeps != [] && Sweeps(sweeps, e, blocked)
    ensures var after := After(sweeps[|sweeps| - 1]);
            && e in after
            && (IsPublished(after, e) ||
                |Ahead(after, e)| + (BATCH_LIMIT - blocked) * |sweeps| <= |Ahead(sweeps[0].events, e)|)
    decreases |sweeps|
  {
    var k := |sweeps| - 1;
    if k == 0 {
      SweepServes(sweeps[0], e, blocked);
    } else {
      var before := After(sweeps[k - 1]);
      assert sweeps[..k][k - 1] == sweeps[k - 1] && sweeps[..k][0] == sweeps[0];
      SweepsProgress(sweeps[..k], e, blocked);
      assert Evolves(before, sweeps[k].events, e);
      AheadShrinks(before, sweeps[k].events, e);
      SweepServes(sweeps[k], e, blocked);
      assert (BATCH_LIMIT - blocked) * (k + 1) == (BATCH_LIMIT - blocked) * k + (BATCH_LIMIT - blocked);
    }
  }

  /** No event starves while its own id is free and fewer than 100 blocked events may be taken before it:
      whatever arrives, falls due or fails in between, a due event is published at the latest by the sweep
      after which 100 - B times the number of sweeps exceeds the number of unpublished events that were
      ahead of it, B bounding the blocked ones. */
  lemma {:induction false} EventIsServed(sweeps: seq<Sweep>, e: EventId, blocked: nat)
    requires sweeps != [] && Sweeps(sweeps, e, blocked)
    requires (100 - blocked) * |sweeps| > |Ahead(sweeps[0].events, e)|
    ensures IsPublished(After(sweeps[|sweeps| - 1]), e)
  {
    SweepsProgress(sweeps, e, blocked);
  }

  // ---------------------------------------------------------------- starvation

  /** The blocked events that are taken before e whatever the query answers. */
  function Blockers(events: map<EventId, Event>, held: set<EventId>, now: int, e: EventId): set<EventId> {
    set x | x in Due(events, now) && x in held && CreatedAt(events, x) < CreatedAt(events, e)
  }

  lemma {:induction false} TakenHasFewBlockers(events: map<EventId, Event>, held: set<EventId>, now: int,
      batch: seq<EventId>, e: EventId)
    requires OldestDue(events, now, batch) && e in batch
    ensures |Blockers(events, held, now, e)| < BATCH_LIMIT
  {
    BatchSize(batch);
    Smaller(Blockers(events, held, now, e), IdsOf(batch) - {e});
    assert |IdsOf(batch) - {e}| == |batch| - 1;
  }

  /** Blocked events stay as they are, and blocked, in every round. */
  lemma {:induction false} BlockersStay(events: map<EventId, Event>, held: set<EventId>, batches: seq<seq<EventId>>,
      x: EventId)
    requires x in events && x in held
    ensures var (after, heldAfter) := AfterRounds(events, held, batches);
            x in after && after[x] == events[x] && x in heldAfter
    decreases |batches|
  {
    if batches == [] {
    } else {
      BlockersStay(events, held, batches[..|batches| - 1], x);
    }
  }

  /** A hundred due events with held ids, older than e, starve it: as long as the queue holds on to those ids,
      e is neither published nor even queued, in any number of rounds at any later times. */
  lemma {:induction false} BlockedBatchStarves(events: map<EventId, Event>, held: set<EventId>, times: seq<int>,
      batches: seq<seq<EventId>>, since: int, e: EventId)
    requires Answered(events, held, times, batches) && forall i :: 0 <= i < |times| ==> since <= times[i]
    requires e in events && |Blockers(events, held, since, e)| >= BATCH_LIMIT
    ensures var (after, heldAfter) := AfterRounds(events, held, batches);
            e in after && after[e] == events[e] && (e in heldAfter <==> e in held)
    decreases |batches|
  {
    if batches == [] {
    } else {
      var k := |batches| - 1;
      BlockedBatchStarves(events, held, times[..k], batches[..k], since, e);
      var (before, heldBefore) := AfterRounds(events, held, batches[..k]);
      forall x | x in Blockers(events, held, since, e) ensures x in Blockers(before, heldBefore, times[k], e) {
        BlockersStay(events, held, batches[..k], x);
      }
      Smaller(Blockers(events, held, since, e), Blockers(before, heldBefore, times[k], e));
      if e in batches[k] { TakenHasFewBlockers(before, heldBefore, times[k], batches[k], e); }
    }
  }

  /** A round that is answered and idle can be repeated for ever. */
  lemma {:induction false} IdleForever(events: map<EventId, Event>, held: set<EventId>, times: seq<int>,
      batch: seq<EventId>) returns (batches: seq<seq<EventId>>)
    requires IdsOf(batch) <= held && forall i :: 0 <= i < |times| ==> OldestDue(events, times[i], batch)
    ensures Answered(events, held, times, batches)
    ensures AfterRounds(events, held, batches) == (events, held)
    decreases |times|
  {
    if times == [] {
      batches := [];
    } else {
      var k := |times| - 1;
      var front := IdleForever(events, held, times[..k], batch);
      batches := front + [batch];
      assert batches[..k] == front;
      RoundIsIdleIff(events, held, times[k], batch);
      assert held + IdsOf(batch) == held;
    }
  }

  /** The events 0 to 99 have failed three times and their jobs are retained; the event 100 is younger and pending. */
  const STUCK: map<EventId, Event> := map e: EventId | 0 <= e <= BATCH_LIMIT ::
    if e < BATCH_LIMIT then Event(Failed, 3, e, 0, true, 3, 3, false) else Event(Pending, 0, e, 0, true, 0, 0, false)

  const RETAINED: set<EventId> := (set i: EventId | 0 <= i < BATCH_LIMIT)

  const OLDEST: seq<EventId> := seq(BATCH_LIMIT, i requires 0 <= i => i)

  lemma {:induction false} OldestAreRetained()
    ensures IdsOf(OLDEST) == RETAINED && |RETAINED| == BATCH_LIMIT && NoRepeats(OLDEST)
  {
    forall i | i in RETAINED ensures i in OLDEST { assert OLDEST[i] == i; }
    BatchSize(OLDEST);
  }

  lemma {:induction false} StuckIsDue(now: int)
    requires now >= 0
    ensures Due(STUCK, now) == RETAINED + {BATCH_LIMIT}
    ensures Blockers(STUCK, RETAINED, now, BATCH_LIMIT) == RETAINED
    ensures OldestDue(STUCK, now, OLDEST)
  {
    OldestAreRetained();
    assert Due(STUCK, now) == RETAINED + {BATCH_LIMIT};
    assert |RETAINED + {BATCH_LIMIT}| == BATCH_LIMIT + 1;
    assert forall e :: e in OLDEST ==> e in IdsOf(OLDEST);
  }

  /** Starvation happens: from this state any number of rounds is answered, at any times, and leaves everything
      as it is, though event 100 is due and its id is free. */
  lemma {:induction false} StarvationHappens(times: seq<int>) returns (batches: seq<seq<EventId>>)
    requires forall i :: 0 <= i < |times| ==> times[i] >= 0
    ensures BATCH_LIMIT in Due(STUCK, 0) && BATCH_LIMIT !in RETAINED
    ensures |Blockers(STUCK, RETAINED, 0, BATCH_LIMIT)| >= BATCH_LIMIT
    ensures Answered(STUCK, RETAINED, times, batches)
    ensures AfterRounds(STUCK, RETAINED, batches) == (STUCK, RETAINED)
  {
    OldestAreRetained();
    StuckIsDue(0);
    forall i | 0 <= i < |times| ensures OldestDue(STUCK, times[i], OLDEST) { StuckIsDue(times[i]); }
    batches := IdleForever(STUCK, RETAINED, times, OLDEST);
  }

  // ---------------------------------------------------------------- when an event is due

  /** No sweep picks up an event within a minute of its last recorded failure. */
  lemma {:induction false} NotSweptForAMinute(w: World, run: RunId, more: seq<Action>, batch: seq<EventId>)
    requires Reachable(w) && Enabled(w, MarkFailed(run, true))
    requires var v := Run(Step(w, MarkFailed(run, true)), more);
             OldestDue(v.events, v.now, batch) && w.runs[run].e in batch
    ensures Run(Step(w, MarkFailed(run, true)), more).now >= w.now + 60 * 1000
  {
    Proofs.FailureWaitsAMinute(w, run, more);
  }

  /** An event that has not failed is due from the moment it is inserted, as long as nobody claims it; later
      insertions are younger or of the same age. */
  lemma {:induction false} NewEventsAreDue(w: World, e: EventId, hasNotification: bool, more: seq<Action>)
    requires Reachable(w) && Enabled(w, Insert(e, hasNotification))
    ensures var v := Run(Step(w, Insert(e, hasNotification)), more);
            && e in v.events
            && (v.events[e].failures == 0 && Claimable(v.events[e].status) ==> e in Due(v.events, v.now))
            && (forall f, h :: Enabled(v, Insert(f, h)) ==>
                 CreatedAt(Step(v, Insert(f, h)).events, e) <= CreatedAt(Step(v, Insert(f, h)).events, f))
  {
    Proofs.InsertionIsKept(w, e, hasNotification, more);
  }
}
