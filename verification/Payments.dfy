/**
 initiatePayment and confirmPayment (src/controllers/paymentController.js) under snapshot isolation.

 A transaction reads one snapshot, buffers its writes, and commits only if no document it wrote has
 changed since the snapshot and the unique index on Payment.shipment still holds. It may abort at any
 moment and start its callback again. Any number of requests interleave, one operation per step.
*/
module Payments {
  import opened Options

  type ShipmentId = nat
  type PaymentId = nat
  type UserId = string
  type RequestId = nat

  datatype PaymentStatus = Unpaid | Pending | Paid | Failed

  datatype Payment = Payment(shipment: ShipmentId, shipper: UserId, amount: real, status: PaymentStatus, version: nat)

  datatype Shipment = Shipment(shipper: UserId, paymentStatus: PaymentStatus, version: nat)

  datatype Db = Db(ships: map<ShipmentId, Shipment>, pays: map<PaymentId, Payment>)

  /** The snapshot and the buffered writes of one attempt of a transaction callback. */
  datatype Txn = Txn(snap: Db, pay: Option<(PaymentId, Payment)>, ship: Option<(ShipmentId, Shipment)>)

  datatype Job =
    | Initiate(sid: ShipmentId, shipper: UserId, amount: real)
    | Confirm(pid: PaymentId, shipper: UserId, success: bool)

  datatype Phase =
    | Found(job: Job)            // initiate: the shipment is there and is the caller's
    | Ready(job: Job)            // every check before the transaction has passed
    | InTxn(job: Job, txn: Txn)
    | Done(code: int, payment: Option<(PaymentId, Payment)>)

  datatype World = World(db: Db, reqs: map<RequestId, Phase>)

  datatype Action =
    | AddShipment(sid: ShipmentId, shipper: UserId)
    | ReadForInitiate(q: RequestId, sid: ShipmentId, shipper: UserId, amount: real, validMethod: bool)
    | CheckExisting(q: RequestId)
    | ReadForConfirm(q: RequestId, pid: PaymentId, shipper: UserId, simulate: Option<bool>)
    | Begin(q: RequestId)
    | WritePayment(q: RequestId, newId: PaymentId)
    | WriteShipment(q: RequestId)
    | Commit(q: RequestId, acknowledged: bool)
    | Abort(q: RequestId, retry: bool)

  /** The schema's minimum amount, checked when the document is created (src/models/Payment.js). */
  const MIN_AMOUNT := 0.01

  const EMPTY := World(Db(map[], map[]), map[])

  function Answer(w: World, q: RequestId, code: int): World {
    w.(reqs := w.reqs[q := Done(code, None)])
  }

  /** A payment of this shipment exists. */
  ghost predicate HasPayment(db: Db, sid: ShipmentId) {
    exists pid :: pid in db.pays && db.pays[pid].shipment == sid
  }

  function PaymentsOf(db: Db, sid: ShipmentId): set<PaymentId> {
    set pid | pid in db.pays && db.pays[pid].shipment == sid
  }

  function Outcome(success: bool): PaymentStatus {
    if success then Paid else Failed
  }

  /** No document written by the transaction has changed since its snapshot, and the insert keeps the
      unique index. */
  predicate NoConflict(db: Db, txn: Txn) {
    && (txn.pay.Some? ==>
          var (pid, doc) := txn.pay.value;
          if pid in txn.snap.pays then pid in db.pays && db.pays[pid].version == txn.snap.pays[pid].version
          else pid !in db.pays && PaymentsOf(db, doc.shipment) == {})
    && (txn.ship.Some? ==>
          var (sid, _) := txn.ship.value;
          sid in db.ships && sid in txn.snap.ships && db.ships[sid].version == txn.snap.ships[sid].version)
  }

  function ApplyWrites(db: Db, txn: Txn): Db {
    Db(if txn.ship.Some? then db.ships[txn.ship.value.0 := txn.ship.value.1] else db.ships,
       if txn.pay.Some? then db.pays[txn.pay.value.0 := txn.pay.value.1] else db.pays)
  }

  /** The first write of the callback: insert the payment, or move it out of `pending`. */
  function FirstWrite(w: World, q: RequestId, job: Job, txn: Txn, newId: PaymentId): World {
    match job
    case Initiate(sid, shipper, amount) =>
      if amount < MIN_AMOUNT then Answer(w, q, 422)
      else if PaymentsOf(txn.snap, sid) != {} || newId in txn.snap.pays then Answer(w, q, 409)
      else w.(reqs := w.reqs[q := InTxn(job, txn.(pay := Some((newId, Payment(sid, shipper, amount, Pending, 0)))))])
    case Confirm(pid, shipper, success) =>
      if pid in txn.snap.pays && txn.snap.pays[pid].shipper == shipper && txn.snap.pays[pid].status.Pending? then
        var doc := txn.snap.pays[pid];
        w.(reqs := w.reqs[q := InTxn(job,
            txn.(pay := Some((pid, doc.(status := Outcome(success), version := doc.version + 1)))))])
      else Answer(w, q, 500)
  }

  /** The second write: the shipment's mirror of the payment status. Confirming insists that the
      mirror still reads `pending`. */
  function SecondWrite(w: World, q: RequestId, job: Job, txn: Txn): World
    requires txn.pay.Some?
  {
    var sid := txn.pay.value.1.shipment;
    var mirrored := sid in txn.snap.ships && (job.Confirm? ==> txn.snap.ships[sid].paymentStatus.Pending?);
    if mirrored then
      var doc := txn.snap.ships[sid];
      var status := txn.pay.value.1.status;
      w.(reqs := w.reqs[q := InTxn(job,
          txn.(ship := Some((sid, doc.(paymentStatus := status, version := doc.version + 1)))))])
    else if job.Confirm? then Answer(w, q, 500)
    else w
  }

  predicate Enabled(w: World, a: Action) {
    match a
    case AddShipment(sid, _) => sid !in w.db.ships
    case ReadForInitiate(q, _, _, _, _) => q !in w.reqs
    case CheckExisting(q) => q in w.reqs && w.reqs[q].Found? && w.reqs[q].job.Initiate?
    case ReadForConfirm(q, _, _, _) => q !in w.reqs
    case Begin(q) => q in w.reqs && w.reqs[q].Ready?
    case WritePayment(q, _) => q in w.reqs && w.reqs[q].InTxn? && w.reqs[q].txn.pay.None?
    case WriteShipment(q) => q in w.reqs && w.reqs[q].InTxn? && w.reqs[q].txn.pay.Some? && w.reqs[q].txn.ship.None?
    case Commit(q, _) => q in w.reqs && w.reqs[q].InTxn? && w.reqs[q].txn.pay.Some? && w.reqs[q].txn.ship.Some?
    case Abort(q, _) => q in w.reqs && w.reqs[q].InTxn?
  }

  function Step(w: World, a: Action): World {
    if !Enabled(w, a) then w
    else match a
      case AddShipment(sid, shipper) => w.(db := w.db.(ships := w.db.ships[sid := Shipment(shipper, Unpaid, 0)]))
      case ReadForInitiate(q, sid, shipper, amount, validMethod) =>
        if amount <= 0.0 || !validMethod then Answer(w, q, 422)
        else if sid !in w.db.ships then Answer(w, q, 404)
        else if w.db.ships[sid].shipper != shipper then Answer(w, q, 403)
        else w.(reqs := w.reqs[q := Found(Initiate(sid, shipper, amount))])
      case CheckExisting(q) =>
        if PaymentsOf(w.db, w.reqs[q].job.sid) != {} then Answer(w, q, 409)
        else w.(reqs := w.reqs[q := Ready(w.reqs[q].job)])
      case ReadForConfirm(q, pid, shipper, simulate) =>
        if simulate.None? then Answer(w, q, 422)
        else if pid !in w.db.pays then Answer(w, q, 404)
        else if w.db.pays[pid].shipper != shipper then Answer(w, q, 403)
        else if !w.db.pays[pid].status.Pending? then Answer(w, q, 400)
        else w.(reqs := w.reqs[q := Ready(Confirm(pid, shipper, simulate.value))])
      case Begin(q) => w.(reqs := w.reqs[q := InTxn(w.reqs[q].job, Txn(w.db, None, None))])
      case WritePayment(q, newId) => FirstWrite(w, q, w.reqs[q].job, w.reqs[q].txn, newId)
      case WriteShipment(q) => SecondWrite(w, q, w.reqs[q].job, w.reqs[q].txn)
      case Commit(q, acknowledged) =>
        var InTxn(job, txn) := w.reqs[q];
        if NoConflict(w.db, txn) then
          World(ApplyWrites(w.db, txn),
                w.reqs[q := if acknowledged then Done(if job.Initiate? then 201 else 200, txn.pay)
                    else Done(500, None)])
        else w.(reqs := w.reqs[q := Ready(job)])
      case Abort(q, retry) => if retry then w.(reqs := w.reqs[q := Ready(w.reqs[q].job)]) else Answer(w, q, 500)
  }

  function Run(w: World, acts: seq<Action>): World
    decreases |acts|
  {
    if acts == [] then w else Step(Run(w, acts[..|acts| - 1]), acts[|acts| - 1])
  }

  ghost predicate Reachable(w: World) {
    exists acts: seq<Action> :: w == Run(EMPTY, acts)
  }
}
