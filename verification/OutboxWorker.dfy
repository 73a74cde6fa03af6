/**
 The outbox worker (src/jobs/outboxJobs.js) over the documents and the queue it updates in place.
 Each method is one step of the machine in module Outbox; PublishOutboxEvent is a whole undisturbed
 run of the job handler, with its try and catch.
*/
module OutboxWorker {
  import opened Options
  import opened Outbox
  import Events = ShipmentEvents

  /** How a command to the database or the queue turns out: applied and reported so, applied and reported
      as failed, or failed. */
  datatype Reply = Acked | Lost | Refused

  predicate Applied(reply: Reply) {
    !reply.Refused?
  }

  /** How the operations of one run turn out; `throws` is an exception before the notification, `recorded`
      says whether the failure write is applied. */
  datatype Faults = Faults(claim: Reply, throws: bool, notify: Reply, publish: Reply, recorded: bool)

  const NO_FAULTS := Faults(Acked, false, Acked, Acked, true)

  datatype Outcome = Skipped | Done | Threw

  /** The run claims a claimable event and comes as far as its publishing write. */
  predicate Reaches(ev: Event, faults: Faults) {
    faults.claim.Acked? && !faults.throws && (ev.hasNotification ==> faults.notify.Acked?)
  }

  predicate Succeeds(ev: Event, faults: Faults) {
    Reaches(ev, faults) && faults.publish.Acked?
  }

  /** The run adds the notification job. */
  predicate Notifies(ev: Event, faults: Faults) {
    faults.claim.Acked? && !faults.throws && ev.hasNotification && Applied(faults.notify)
  }

  /** A claimed document after the try block. */
  function AfterTry(ev: Event, faults: Faults): Event {
    if faults.throws then ev
    else ev.(rounds := ev.rounds + 1, notified := ev.notified || Notifies(ev, faults),
             status := if Reaches(ev, faults) && Applied(faults.publish) then Published else ev.status)
  }

  function Recorded(ev: Event, now: int): Event {
    ev.(status := Failed, availableAt := now + RETRY_DELAY_MS, failures := ev.failures + 1)
  }

  /** A claimable document after an undisturbed run of the handler on it. */
  function AfterRun(ev: Event, faults: Faults, now: int): Event {
    var claimed := ev.(status := Processing, attempts := ev.attempts + 1);
    match faults.claim
    case Refused => ev
    case Lost => claimed
    case Acked =>
      var tried := AfterTry(claimed, faults);
      if Succeeds(ev, faults) || !faults.recorded then tried else Recorded(tried, now)
  }

  predicate HasClaim(w: World, run: RunId) {
    run in w.runs && w.runs[run].Claimed? && w.runs[run].e in w.events
  }

  /** The steps of the try block, one after another. */
  function TryBlock(w: World, run: RunId, faults: Faults): World
    requires HasClaim(w, run)
  {
    if faults.throws then Step(w, Throw(run))
    else
      var w1 := Step(Step(w, Emit(run)), Notify(run, Applied(faults.notify), faults.notify.Acked?));
      if w1.runs[run].Notified?
      then Step(w1, MarkPublished(run, Applied(faults.publish), faults.publish.Acked?))
      else w1
  }

  /** The try block ends the run just when it is told that it published; otherwise the catch block is
      next. */
  lemma {:induction false} TryBlockMeans(w: World, run: RunId, faults: Faults)
    requires HasClaim(w, run) && faults.claim.Acked?
    ensures var e := w.runs[run].e;
            var ev := w.events[e];
            var w' := TryBlock(w, run, faults);
            && e in w'.events && run in w'.runs && w'.now == w.now && w'.runs == w.runs[run := w'.runs[run]]
            && w'.runs[run] == (if Succeeds(ev, faults) then Over else Failing(e))
            && w'.events == w.events[e := AfterTry(ev, faults)]
            && w'.held == if Notifies(ev, faults) then AddJob(w.held, e) else w.held
  {
    var e := w.runs[run].e;
    if !faults.throws {
      var w1 := Step(w, Emit(run));
      assert w1.runs == w.runs[run := Emitted(e)];
      assert w1.events == w.events[e := w.events[e].(rounds := w.events[e].rounds + 1)];
      var w2 := Step(w1, Notify(run, Applied(faults.notify), faults.notify.Acked?));
      assert w2.events == w.events[e := w2.events[e]] && w2.runs == w.runs[run := w2.runs[run]];
    }
  }

  /** publishOutboxEvent: claim, try, catch. */
  function Handle(w: World, run: RunId, e: EventId, faults: Faults): World
    requires run !in w.runs
  {
    var w1 := Step(w, Claim(run, e, Applied(faults.claim), faults.claim.Acked?));
    if w1.runs[run].Over? then w1
    else
      TryBlockMeans(w1, run, faults);
      var w2 := TryBlock(w1, run, faults);
      if w2.runs[run].Failing? then Step(w2, MarkFailed(run, faults.recorded)) else w2
  }

  predicate IsClaimable(w: World, e: EventId) {
    e in w.events && Claimable(w.events[e].status)
  }

  /** A run whose claim fails, or seems to, throws; one that finds nothing to claim is skipped. */
  function HandleOutcome(w: World, e: EventId, faults: Faults): Outcome {
    if !faults.claim.Acked? then Threw
    else if !IsClaimable(w, e) then Skipped
    else if Succeeds(w.events[e], faults) then Done
    else Threw
  }

  lemma {:induction false} ClaimMeans(w: World, run: RunId, e: EventId, faults: Faults)
    requires run !in w.runs
    ensures var w' := Step(w, Claim(run, e, Applied(faults.claim), faults.claim.Acked?));
            && w'.now == w.now && w'.held == w.held
            && w'.runs == w.runs[run := if IsClaimable(w, e) && faults.claim.Acked? then Claimed(e) else Over]
            && w'.events == if IsClaimable(w, e) && Applied(faults.claim)
                            then w.events[e := w.events[e].(status := Processing, attempts := w.events[e].attempts + 1)]
                            else w.events
  {
  }

  lemma {:induction false} CatchMeans(w: World, run: RunId, applied: bool)
    requires run in w.runs && w.runs[run].Failing? && w.runs[run].e in w.events
    ensures var e := w.runs[run].e;
            var w' := Step(w, MarkFailed(run, applied));
            && w'.now == w.now && w'.held == w.held && w'.runs == w.runs[run := Over]
            && w'.events == if applied then w.events[e := Recorded(w.events[e], w.now)] else w.events
  {
  }

  /** An undisturbed run, whatever is refused and whichever acknowledgements get lost, leaves every other
      document alone, changes a claimable one to AfterRun, adds at most its notification job, and is over. */
  lemma {:induction false} HandleMeans(w: World, run: RunId, e: EventId, faults: Faults)
    requires run !in w.runs
    ensures var w' := Handle(w, run, e, faults);
            && w'.now == w.now && w'.runs == w.runs[run := Over]
            && (!IsClaimable(w, e) ==> w'.events == w.events && w'.held == w.held)
            && (IsClaimable(w, e) ==>
                 && w'.events == w.events[e := AfterRun(w.events[e], faults, w.now)]
                 && w'.held == if Notifies(w.events[e], faults) then AddJob(w.held, e) else w.held)
  {
    ClaimMeans(w, run, e, faults);
    if IsClaimable(w, e) && faults.claim.Acked? {
      var w1 := Step(w, Claim(run, e, true, true));
      TryBlockMeans(w1, run, faults);
      var w2 := TryBlock(w1, run, faults);
      if w2.runs[run].Failing? { CatchMeans(w2, run, faults.recorded); }
      assert w2.events == w.events[e := w2.events[e]];
    } else if IsClaimable(w, e) && faults.claim.Refused? {
      assert w.events == w.events[e := w.events[e]];
    }
  }

  /** What the handler tells the queue: done only for an event it has just published; skipped only if nothing was
      there to claim, and then nothing has changed; it throws exactly if its claim was not answered, or a claimed
      event was not published for certain. */
  lemma {:induction false} OutcomesTell(w: World, run: RunId, e: EventId, faults: Faults)
    requires run !in w.runs
    ensures var w', outcome := Handle(w, run, e, faults), HandleOutcome(w, e, faults);
            && (outcome.Done? ==> IsClaimable(w, e) && e in w'.events && w'.events[e].status.Published?)
            && (outcome.Skipped? ==> !IsClaimable(w, e) && w'.events == w.events && w'.held == w.held)
            && (outcome.Threw? <==>
                 !faults.claim.Acked? || (IsClaimable(w, e) && !Succeeds(w.events[e], faults)))
  {
    HandleMeans(w, run, e, faults);
  }

  class Worker {
    var events: map<EventId, Event>
    var runs: map<RunId, Phase>
    var held: seq<EventId>
    var now: int

    ghost function View(): World
      reads this
    {
      World(events, runs, held, now)
    }

    constructor ()
      ensures View() == EMPTY
    {
      events, runs, held, now := map[], map[], [], 0;
    }

    /** findOneAndUpdate on a pending or failed event. */
    method ClaimEvent(run: RunId, e: EventId, applied: bool, acknowledged: bool)
      requires Enabled(View(), Claim(run, e, applied, acknowledged))
      modifies this
      ensures View() == Step(old(View()), Claim(run, e, applied, acknowledged))
    {
      if !applied || e !in events || !(events[e].status == Pending || events[e].status == Failed) {
        runs := runs[run := Over];
        return;
      }
      events := events[e := events[e].(status := Processing, attempts := events[e].attempts + 1)];
      runs := runs[run := if acknowledged then Claimed(e) else Over];
    }

    method EmitRound(run: RunId)
      requires Enabled(View(), Emit(run))
      modifies this
      ensures View() == Step(old(View()), Emit(run))
    {
      var e := runs[run].e;
      events := events[e := events[e].(rounds := events[e].rounds + 1)];
      runs := runs[run := Emitted(e)];
    }

    method EnqueueNotification(run: RunId, applied: bool, acknowledged: bool)
      requires Enabled(View(), Notify(run, applied, acknowledged))
      modifies this
      ensures View() == Step(old(View()), Notify(run, applied, acknowledged))
    {
      var e := runs[run].e;
      if !events[e].hasNotification {
        runs := runs[run := Notified(e)];
        return;
      }
      if applied {
        if e !in held {
          held := held + [e];
        }
        events := events[e := events[e].(notified := true)];
      }
      runs := runs[run := if acknowledged then Notified(e) else Failing(e)];
    }

    method WritePublished(run: RunId, applied: bool, acknowledged: bool)
      requires Enabled(View(), MarkPublished(run, applied, acknowledged))
      modifies this
      ensures View() == Step(old(View()), MarkPublished(run, applied, acknowledged))
    {
      var e := runs[run].e;
      if applied {
        events := events[e := events[e].(status := Published)];
      }
      runs := runs[run := if acknowledged then Over else Failing(e)];
    }

    method WriteFailed(run: RunId, applied: bool)
      requires Enabled(View(), MarkFailed(run, applied))
      modifies this
      ensures View() == Step(old(View()), MarkFailed(run, applied))
    {
      var e := runs[run].e;
      if applied {
        var ev := events[e];
        events := events[e := ev.(status := Failed, availableAt := now + 60 * 1000, failures := ev.failures + 1)];
      }
      runs := runs[run := Over];
    }

    method Raise(run: RunId)
      requires Enabled(View(), Throw(run))
      modifies this
      ensures View() == Step(old(View()), Throw(run))
    {
      runs := runs[run := Failing(runs[run].e)];
    }

    /** The try block of publishOutboxEvent. */
    method TryToPublish(run: RunId, faults: Faults)
      requires HasClaim(View(), run)
      modifies this
      ensures View() == TryBlock(old(View()), run, faults)
    {
      if faults.throws {
        Raise(run);
        return;
      }
      EmitRound(run);
      EnqueueNotification(run, Applied(faults.notify), faults.notify.Acked?);
      if runs[run].Notified? {
        WritePublished(run, Applied(faults.publish), faults.publish.Acked?);
      }
    }

    /** publishOutboxEvent: one run of the job handler that no other run disturbs. */
    method PublishOutboxEvent(run: RunId, e: EventId, faults: Faults) returns (outcome: Outcome)
      requires run !in runs
      modifies this
      ensures View() == Handle(old(View()), run, e, faults)
      ensures outcome == HandleOutcome(old(View()), e, faults)
    {
      ClaimEvent(run, e, Applied(faults.claim), faults.claim.Acked?);
      if !faults.claim.Acked? {
        return Threw;
      }
      if runs[run].Over? {
        return Skipped;
      }
      ghost var claimed := View();
      TryToPublish(run, faults);
      TryBlockMeans(claimed, run, faults);
      if runs[run].Failing? {
        WriteFailed(run, faults.recorded);
        return Threw;
      }
      return Done;
    }
  }

  // ---------------------------------------------------------------- socket emission

  /** The parts of a payload that its emission reads; events of users have neither room nor shipment. */
  datatype Payload = Payload(room: Option<string>, shipmentId: Option<string>, socketEvents: seq<Events.SocketEvent>)

  function PayloadOf(ev: Events.Event): Payload {
    Payload(ev.room, Some(ev.shipment), ev.socketEvents)
  }

  predicate Truthy(s: Option<string>) {
    s.Some? && s.value != ""
  }

  /** The payload's room, or that of its shipment, or none. */
  function RoomIn(payload: Payload): Option<string> {
    if Truthy(payload.room) then payload.room
    else if Truthy(payload.shipmentId) then Some(Events.RoomOf(payload.shipmentId.value))
    else None
  }

  /** The events of a shipment always have a room: their own, or their shipment's. */
  lemma {:induction false} ShipmentEventsHaveARoom(ev: Events.Event)
    requires ev.shipment != "" && ev.room != Some("")
    ensures RoomIn(PayloadOf(ev)) == Some(Events.EmissionRoom(ev))
  {
  }

  datatype Message = Message(room: string, event: Events.SocketEvent)

  function Messages(room: string, events: seq<Events.SocketEvent>): (ms: seq<Message>)
    ensures |ms| == |events|
    ensures forall i :: 0 <= i < |ms| ==> ms[i] == Message(room, events[i])
  {
    seq(|events|, i requires 0 <= i < |events| => Message(room, events[i]))
  }

  class SocketServer {
    var emitted: seq<Message>

    constructor ()
      ensures emitted == []
    {
      emitted := [];
    }

    /** emitSocketEvents: every socket event of the payload, in order, to the payload's room; nothing
        when the socket server is not up or the payload has no room. */
    method EmitSocketEvents(payload: Payload, up: bool)
      modifies this
      ensures emitted == old(emitted) +
                if up && RoomIn(payload).Some? then Messages(RoomIn(payload).value, payload.socketEvents) else []
    {
      if !up {
        return;
      }
      var room := "";
      if payload.room.Some? && payload.room.value != "" {
        room := payload.room.value;
      } else if payload.shipmentId.Some? && payload.shipmentId.value != "" {
        room := "shipment_" + payload.shipmentId.value;
      } else {
        return;
      }
      var i := 0;
      while i < |payload.socketEvents|
        invariant 0 <= i <= |payload.socketEvents|
        invariant emitted == old(emitted) + Messages(room, payload.socketEvents[..i])
      {
        emitted := emitted + [Message(room, payload.socketEvents[i])];
        assert Messages(room, payload.socketEvents[..i + 1]) ==
               Messages(room, payload.socketEvents[..i]) + [Message(room, payload.socketEvents[i])];
        i := i + 1;
      }
      assert payload.socketEvents[..i] == payload.socketEvents;
    }
  }
}
