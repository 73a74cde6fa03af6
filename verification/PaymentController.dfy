/**
 The payment controller (src/controllers/paymentController.js) over the collections it updates in
 place, one database operation per method. Each method is proved to take exactly the step of the
 machine in module Payments.
*/
module PaymentController {
  import opened Options
  import opened Payments

  class Store {
    var ships: map<ShipmentId, Shipment>
    var pays: map<PaymentId, Payment>
    var reqs: map<RequestId, Phase>

    ghost function View(): World
      reads this
    {
      World(Db(ships, pays), reqs)
    }

    constructor ()
      ensures View() == EMPTY
    {
      ships, pays, reqs := map[], map[], map[];
    }

    method StartInitiate(q: RequestId, sid: ShipmentId, shipper: UserId, amount: real, validMethod: bool)
      requires Enabled(View(), ReadForInitiate(q, sid, shipper, amount, validMethod))
      modifies this
      ensures View() == Step(old(View()), ReadForInitiate(q, sid, shipper, amount, validMethod))
    {
      if amount <= 0.0 {
        reqs := reqs[q := Done(422, None)];
        return;
      }
      if !validMethod {
        reqs := reqs[q := Done(422, None)];
        return;
      }
      if sid !in ships {
        reqs := reqs[q := Done(404, None)];
        return;
      }
      if ships[sid].shipper != shipper {
        reqs := reqs[q := Done(403, None)];
        return;
      }
      reqs := reqs[q := Found(Initiate(sid, shipper, amount))];
    }

    method RefuseSecondPayment(q: RequestId)
      requires Enabled(View(), CheckExisting(q))
      modifies this
      ensures View() == Step(old(View()), CheckExisting(q))
    {
      var job := reqs[q].job;
      if PaymentsOf(Db(ships, pays), job.sid) != {} {
        reqs := reqs[q := Done(409, None)];
      } else {
        reqs := reqs[q := Ready(job)];
      }
    }

    method StartConfirm(q: RequestId, pid: PaymentId, shipper: UserId, simulate: Option<bool>)
      requires Enabled(View(), ReadForConfirm(q, pid, shipper, simulate))
      modifies this
      ensures View() == Step(old(View()), ReadForConfirm(q, pid, shipper, simulate))
    {
      if simulate.None? {
        reqs := reqs[q := Done(422, None)];
      } else if pid !in pays {
        reqs := reqs[q := Done(404, None)];
      } else if pays[pid].shipper != shipper {
        reqs := reqs[q := Done(403, None)];
      } else if pays[pid].status != Pending {
        reqs := reqs[q := Done(400, None)];
      } else {
        reqs := reqs[q := Ready(Confirm(pid, shipper, simulate.value))];
      }
    }

    method BeginTransaction(q: RequestId)
      requires Enabled(View(), Begin(q))
      modifies this
      ensures View() == Step(old(View()), Begin(q))
    {
      reqs := reqs[q := InTxn(reqs[q].job, Txn(Db(ships, pays), None, None))];
    }

    /** Payment.create, or Payment.findOneAndUpdate on a pending payment of the caller. */
    method WritePaymentInTxn(q: RequestId, newId: PaymentId)
      requires Enabled(View(), WritePayment(q, newId))
      modifies this
      ensures View() == Step(old(View()), WritePayment(q, newId))
    {
      var InTxn(job, txn) := reqs[q];
      match job {
        case Initiate(sid, shipper, amount) =>
          if amount < MIN_AMOUNT {
            reqs := reqs[q := Done(422, None)];
            return;
          }
          if PaymentsOf(txn.snap, sid) != {} || newId in txn.snap.pays {
            reqs := reqs[q := Done(409, None)];
            return;
          }
          txn := txn.(pay := Some((newId, Payment(sid, shipper, amount, Pending, 0))));
        case Confirm(pid, shipper, success) =>
          if !(pid in txn.snap.pays && txn.snap.pays[pid].shipper == shipper && txn.snap.pays[pid].status == Pending) {
            reqs := reqs[q := Done(500, None)];
            return;
          }
          var payment := txn.snap.pays[pid];
          payment := payment.(status := if success then Paid else Failed);
          txn := txn.(pay := Some((pid, payment.(version := payment.version + 1))));
      }
      reqs := reqs[q := InTxn(job, txn)];
    }

    /** Shipment.findByIdAndUpdate, or Shipment.updateOne on a pending mirror. */
    method WriteShipmentInTxn(q: RequestId)
      requires Enabled(View(), WriteShipment(q))
      modifies this
      ensures View() == Step(old(View()), WriteShipment(q))
    {
      var InTxn(job, txn) := reqs[q];
      var payment := txn.pay.value.1;
      var sid := payment.shipment;
      if job.Confirm? && (sid !in txn.snap.ships || txn.snap.ships[sid].paymentStatus != Pending) {
        reqs := reqs[q := Done(500, None)];
        return;
      }
      if sid in txn.snap.ships {
        var shipment := txn.snap.ships[sid];
        shipment := shipment.(paymentStatus := payment.status, version := shipment.version + 1);
        reqs := reqs[q := InTxn(job, txn.(ship := Some((sid, shipment))))];
      }
    }

    /** Commit both documents, or start the callback again on a write conflict. */
    method CommitTransaction(q: RequestId, acknowledged: bool)
      requires Enabled(View(), Commit(q, acknowledged))
      modifies this
      ensures View() == Step(old(View()), Commit(q, acknowledged))
    {
      var InTxn(job, txn) := reqs[q];
      if !NoConflict(Db(ships, pays), txn) {
        reqs := reqs[q := Ready(job)];
        return;
      }
      var (pid, payment) := txn.pay.value;
      var (sid, shipment) := txn.ship.value;
      pays := pays[pid := payment];
      ships := ships[sid := shipment];
      if !acknowledged {
        reqs := reqs[q := Done(500, None)];
      } else if job.Initiate? {
        reqs := reqs[q := Done(201, Some((pid, payment)))];
      } else {
        reqs := reqs[q := Done(200, Some((pid, payment)))];
      }
    }

    method AbortTransaction(q: RequestId, retry: bool)
      requires Enabled(View(), Abort(q, retry))
      modifies this
      ensures View() == Step(old(View()), Abort(q, retry))
    {
      if retry {
        reqs := reqs[q := Ready(reqs[q].job)];
      } else {
        reqs := reqs[q := Done(500, None)];
      }
    }
  }
}
