/** Shipment statuses and the outbox events that announce their changes (src/services/shipmentEventService.js). */
module ShipmentEvents {
  import opened Options

  type ShipmentId = string

  datatype Status = Pending | Assigned | PickedUp | InTransit | Delivered | Cancelled

  datatype Actor = Shipper | Admin

  datatype SocketEvent = SocketEvent(name: string, shipment: ShipmentId)

  /** The parts of an outbox payload that its consumers read. */
  datatype Event = Event(
    kind: string, shipment: ShipmentId, room: Option<string>, socketEvents: seq<SocketEvent>,
    cancelledBy: Option<Actor>, previous: Option<Status>, next: Status)

  function RoomOf(id: ShipmentId): string {
    "shipment_" + id
  }

  function CreatedEvent(id: ShipmentId): Event {
    Event("shipment.created", id, None, [], None, None, Pending)
  }

  function AssignedEvent(id: ShipmentId): Event {
    Event("shipment.assigned", id, Some(RoomOf(id)), [SocketEvent("driverAssigned", id)], None, Some(Pending), Assigned)
  }

  function CancelledEvent(id: ShipmentId, previous: Status, actor: Actor): Event {
    Event("shipment.cancelled", id, Some(RoomOf(id)), [SocketEvent("statusUpdated", id)], Some(actor), Some(previous),
        Cancelled)
  }

  function StatusEvent(id: ShipmentId, previous: Status, next: Status): Event {
    Event(if next.Delivered? then "shipment.delivered" else "shipment.status_updated", id, Some(RoomOf(id)),
          [SocketEvent("statusUpdated", id)] + if next.Delivered? then [SocketEvent("shipmentDelivered", id)] else [],
          None, Some(previous), next)
  }

  /** Where emitSocketEvents sends the socket events of a payload (src/jobs/outboxJobs.js). */
  function EmissionRoom(ev: Event): string {
    if ev.room.Some? then ev.room.value else RoomOf(ev.shipment)
  }
}

/**
 The four controllers that change a shipment, racing over one collection.

 A step is one database operation: a read, a conditional `findOneAndUpdate`, the insertion of the
 announcing event, or the death of the request. Any number of requests interleave freely.
*/
module Lifecycle {
  import opened Options
  import opened ShipmentEvents

  type UserId = string
  type RequestId = nat

  datatype Entry = Entry(status: Status, author: UserId)

  datatype Shipment = Shipment(shipper: UserId, driver: Option<UserId>, status: Status, history: seq<Entry>)

  /** Where a request stands between two of its database operations. */
  datatype Phase =
    | DriverRead(sid: ShipmentId, driver: UserId, seen: Status, want: Status)
    | ShipperRead(sid: ShipmentId, shipper: UserId, seen: Status)
    | AdminRead(sid: ShipmentId, admin: UserId, seen: Status)
    | AssignMissed(sid: ShipmentId)
    | Owes(ev: Event)      // the shipment is updated, the event is not written yet
    | Dropped(ev: Event)   // the request died, or its insertion failed, in between
    | Finished(code: int)

  datatype World = World(ships: map<ShipmentId, Shipment>, reqs: map<RequestId, Phase>, events: seq<Event>)

  datatype Action =
    | Create(q: RequestId, sid: ShipmentId, shipper: UserId)
    | AssignDriver(q: RequestId, sid: ShipmentId, driver: UserId, admin: UserId)
    | ExplainMiss(q: RequestId)
    | ReadForStatus(q: RequestId, sid: ShipmentId, driver: UserId, want: Status)
    | UpdateStatus(q: RequestId)
    | ReadForCancel(q: RequestId, sid: ShipmentId, shipper: UserId)
    | CancelByShipper(q: RequestId)
    | ReadForAdminCancel(q: RequestId, sid: ShipmentId, admin: UserId)
    | CancelByAdmin(q: RequestId)
    | WriteEvent(q: RequestId)
    | Die(q: RequestId)

  const EMPTY := World(map[], map[], [])

  /** STATUS_PROGRESSION: the only status a driver may set next. */
  function Progression(status: Status): Option<Status> {
    match status
    case Assigned => Some(PickedUp)
    case PickedUp => Some(InTransit)
    case InTransit => Some(Delivered)
    case _ => None
  }

  function Push(sh: Shipment, status: Status, author: UserId): Shipment {
    sh.(status := status, history := sh.history + [Entry(status, author)])
  }

  function Answer(w: World, q: RequestId, phase: Phase): World {
    w.(reqs := w.reqs[q := phase])
  }

  /** A matched `findOneAndUpdate`: the new document, and the event the request now owes. */
  function Commit(w: World, q: RequestId, sid: ShipmentId, sh: Shipment, ev: Event): World {
    w.(ships := w.ships[sid := sh], reqs := w.reqs[q := Owes(ev)])
  }

  function DecideStatus(w: World, sid: ShipmentId, driver: UserId, want: Status): Phase {
    if sid !in w.ships then Finished(404)
    else
      var sh := w.ships[sid];
      if sh.driver != Some(driver) then Finished(403)
      else if Progression(sh.status).None? then Finished(400)
      else if Progression(sh.status) != Some(want) then Finished(400)
      else DriverRead(sid, driver, sh.status, want)
  }

  function DecideCancel(w: World, sid: ShipmentId, shipper: UserId): Phase {
    if sid !in w.ships then Finished(404)
    else if w.ships[sid].shipper != shipper then Finished(403)
    else if !w.ships[sid].status.Pending? then Finished(400)
    else ShipperRead(sid, shipper, w.ships[sid].status)
  }

  function DecideAdminCancel(w: World, sid: ShipmentId, admin: UserId): Phase {
    if sid !in w.ships then Finished(404)
    else if w.ships[sid].status.Cancelled? then Finished(400)
    else AdminRead(sid, admin, w.ships[sid].status)
  }

  predicate Enabled(w: World, a: Action) {
    match a
    case Create(q, sid, _) => q !in w.reqs && sid !in w.ships
    case AssignDriver(q, _, _, _) => q !in w.reqs
    case ExplainMiss(q) => q in w.reqs && w.reqs[q].AssignMissed?
    case ReadForStatus(q, _, _, _) => q !in w.reqs
    case UpdateStatus(q) => q in w.reqs && w.reqs[q].DriverRead?
    case ReadForCancel(q, _, _) => q !in w.reqs
    case CancelByShipper(q) => q in w.reqs && w.reqs[q].ShipperRead?
    case ReadForAdminCancel(q, _, _) => q !in w.reqs
    case CancelByAdmin(q) => q in w.reqs && w.reqs[q].AdminRead?
    case WriteEvent(q) => q in w.reqs && w.reqs[q].Owes?
    case Die(q) => q in w.reqs && !w.reqs[q].Finished? && !w.reqs[q].Dropped?
  }

  function Step(w: World, a: Action): World {
    if !Enabled(w, a) then w
    else match a
      case Create(q, sid, shipper) =>
        Commit(w, q, sid, Shipment(shipper, None, Pending, [Entry(Pending, shipper)]), CreatedEvent(sid))
      case AssignDriver(q, sid, driver, admin) =>
        if sid in w.ships && w.ships[sid].status.Pending?
        then Commit(w, q, sid, Push(w.ships[sid].(driver := Some(driver)), Assigned, admin), AssignedEvent(sid))
        else Answer(w, q, AssignMissed(sid))
      case ExplainMiss(q) => Answer(w, q, Finished(if w.reqs[q].sid in w.ships then 409 else 404))
      case ReadForStatus(q, sid, driver, want) => Answer(w, q, DecideStatus(w, sid, driver, want))
      case UpdateStatus(q) =>
        var p := w.reqs[q];
        if p.sid in w.ships && w.ships[p.sid].driver == Some(p.driver) && w.ships[p.sid].status == p.seen
        then Commit(w, q, p.sid, Push(w.ships[p.sid], p.want, p.driver), StatusEvent(p.sid, p.seen, p.want))
        else Answer(w, q, Finished(400))
      case ReadForCancel(q, sid, shipper) => Answer(w, q, DecideCancel(w, sid, shipper))
      case CancelByShipper(q) =>
        var p := w.reqs[q];
        if p.sid in w.ships && w.ships[p.sid].shipper == p.shipper && w.ships[p.sid].status.Pending?
        then Commit(w, q, p.sid, Push(w.ships[p.sid], Cancelled, p.shipper), CancelledEvent(p.sid, p.seen, Shipper))
        else Answer(w, q, Finished(400))
      case ReadForAdminCancel(q, sid, admin) => Answer(w, q, DecideAdminCancel(w, sid, admin))
      case CancelByAdmin(q) =>
        var p := w.reqs[q];
        if p.sid in w.ships && !w.ships[p.sid].status.Cancelled?
        then Commit(w, q, p.sid, Push(w.ships[p.sid], Cancelled, p.admin), CancelledEvent(p.sid, p.seen, Admin))
        else Answer(w, q, Finished(409))
      case WriteEvent(q) => w.(events := w.events + [w.reqs[q].ev], reqs := w.reqs[q := Finished(200)])
      case Die(q) => Answer(w, q, if w.reqs[q].Owes? then Dropped(w.reqs[q].ev) else Finished(500))
  }

  function Run(w: World, acts: seq<Action>): World
    decreases |acts|
  {
    if acts == [] then w else Step(Run(w, acts[..|acts| - 1]), acts[|acts| - 1])
  }

  ghost predicate Reachable(w: World) {
    exists acts: seq<Action> :: w == Run(EMPTY, acts)
  }
}
