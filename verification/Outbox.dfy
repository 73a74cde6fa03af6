/**
 publishOutboxEvent (src/jobs/outboxJobs.js) run by any number of workers on any number of duplicate jobs.

 A step is one database write, one queue command, one emission round, or the death of a run. A write may
 be applied and still be reported as failed (`acknowledged` false): the lost acknowledgement.
*/
module Outbox {
  type EventId = nat
  type RunId = nat

  datatype Status = Pending | Processing | Published | Failed

  /** The stored document, with the history of what was done for it: recorded failures, emission
      rounds, and whether its notification job was ever added. */
  datatype Event = Event(
    status: Status, attempts: nat, createdAt: int, availableAt: int, hasNotification: bool,
    failures: nat, rounds: nat, notified: bool)

  datatype Phase =
    | Claimed(e: EventId)
    | Emitted(e: EventId)
    | Notified(e: EventId)
    | Failing(e: EventId)   // in the catch block
    | Over

  /** `held`: the ids of the notification jobs the queue holds, in the order they were added. */
  datatype World = World(events: map<EventId, Event>, runs: map<RunId, Phase>, held: seq<EventId>, now: int)

  datatype Action =
    | Insert(e: EventId, hasNotification: bool)
    | Claim(run: RunId, e: EventId, applied: bool, acknowledged: bool)
    | Emit(run: RunId)
    | Notify(run: RunId, applied: bool, acknowledged: bool)
    | MarkPublished(run: RunId, applied: bool, acknowledged: bool)
    | MarkFailed(run: RunId, applied: bool)
    | Throw(run: RunId)
    | Die(run: RunId)
    | Forget(i: nat)   // retention removes the i-th held notification job
    | Tick(delta: nat)

  const EMPTY := World(map[], map[], [], 0)

  const RETRY_DELAY_MS := 60 * 1000

  predicate Claimable(status: Status) {
    status.Pending? || status.Failed?
  }

  predicate Alive(phase: Phase) {
    !phase.Over?
  }

  /** Adding a job whose id the queue already holds is ignored. */
  function AddJob(held: seq<EventId>, e: EventId): seq<EventId> {
    if e in held then held else held + [e]
  }

  predicate Enabled(w: World, a: Action) {
    match a
    case Insert(e, _) => e !in w.events
    case Claim(run, _, applied, acknowledged) => run !in w.runs && (acknowledged ==> applied)
    case Emit(run) => run in w.runs && w.runs[run].Claimed? && w.runs[run].e in w.events
    case Notify(run, applied, acknowledged) =>
      run in w.runs && w.runs[run].Emitted? && w.runs[run].e in w.events && (acknowledged ==> applied)
    case MarkPublished(run, applied, acknowledged) =>
      run in w.runs && w.runs[run].Notified? && w.runs[run].e in w.events && (acknowledged ==> applied)
    case MarkFailed(run, _) => run in w.runs && w.runs[run].Failing? && w.runs[run].e in w.events
    case Throw(run) => run in w.runs && (w.runs[run].Claimed? || w.runs[run].Emitted? || w.runs[run].Notified?)
    case Die(run) => run in w.runs && Alive(w.runs[run])
    case Forget(i) => i < |w.held|
    case Tick(_) => true
  }

  function Set(w: World, run: RunId, phase: Phase, e: EventId, ev: Event): World {
    w.(events := w.events[e := ev], runs := w.runs[run := phase])
  }

  function Step(w: World, a: Action): World {
    if !Enabled(w, a) then w
    else match a
      case Insert(e, hasNotification) =>
        w.(events := w.events[e := Event(Pending, 0, w.now, w.now, hasNotification, 0, 0, false)])
      case Claim(run, e, applied, acknowledged) =>
        if applied && e in w.events && Claimable(w.events[e].status) then
          var ev := w.events[e];
          Set(w, run, if acknowledged then Claimed(e) else Over, e,
              ev.(status := Processing, attempts := ev.attempts + 1))
        else w.(runs := w.runs[run := Over])
      case Emit(run) =>
        var e := w.runs[run].e;
        Set(w, run, Emitted(e), e, w.events[e].(rounds := w.events[e].rounds + 1))
      case Notify(run, applied, acknowledged) =>
        var e := w.runs[run].e;
        if !w.events[e].hasNotification then w.(runs := w.runs[run := Notified(e)])
        else if applied then
          Set(w, run, if acknowledged then Notified(e) else Failing(e), e,
              w.events[e].(notified := true)).(held := AddJob(w.held, e))
        else w.(runs := w.runs[run := Failing(e)])
      case MarkPublished(run, applied, acknowledged) =>
        var e := w.runs[run].e;
        var phase := if acknowledged then Over else Failing(e);
        if applied then Set(w, run, phase, e, w.events[e].(status := Published)) else w.(runs := w.runs[run := phase])
      case MarkFailed(run, applied) =>
        var e := w.runs[run].e;
        if applied then
          Set(w, run, Over, e, w.events[e].(status := Failed, availableAt := w.now + RETRY_DELAY_MS,
              failures := w.events[e].failures + 1))
        else w.(runs := w.runs[run := Over])
      case Throw(run) => w.(runs := w.runs[run := Failing(w.runs[run].e)])
      case Die(run) => w.(runs := w.runs[run := Over])
      case Forget(i) => w.(held := w.held[..i] + w.held[i + 1..])
      case Tick(delta) => w.(now := w.now + delta)
  }

  function Run(w: World, acts: seq<Action>): World
    decreases |acts|
  {
    if acts == [] then w else Step(Run(w, acts[..|acts| - 1]), acts[|acts| - 1])
  }

  ghost predicate Reachable(w: World) {
    exists acts: seq<Action> :: w == Run(EMPTY, acts)
  }
}
