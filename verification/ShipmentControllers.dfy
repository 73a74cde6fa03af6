/**
 The shipment controllers (src/controllers) over the collections they update in place. Each method
 is one database operation of one request, and is proved to take exactly the step of the machine in
 module Lifecycle; requests interleave between methods.
*/
module ShipmentControllers {
  import opened Options
  import opened ShipmentEvents
  import opened Lifecycle

  class Store {
    var ships: map<ShipmentId, Shipment>
    var reqs: map<RequestId, Phase>
    var events: seq<Event>

    ghost function View(): World
      reads this
    {
      World(ships, reqs, events)
    }

    constructor ()
      ensures View() == EMPTY
    {
      ships, reqs, events := map[], map[], [];
    }

    /** One atomic conditional update: nothing happens unless the filter matches the document. */
    method FindOneAndUpdate(sid: ShipmentId, filter: Shipment -> bool, update: Shipment -> Shipment)
      returns (matched: bool)
      modifies this`ships
      ensures matched <==> sid in old(ships) && filter(old(ships)[sid])
      ensures ships == if matched then old(ships)[sid := update(old(ships)[sid])] else old(ships)
    {
      matched := sid in ships && filter(ships[sid]);
      if matched {
        ships := ships[sid := update(ships[sid])];
      }
    }

    method CreateShipment(q: RequestId, sid: ShipmentId, shipper: UserId)
      requires Enabled(View(), Create(q, sid, shipper))
      modifies this
      ensures View() == Step(old(View()), Create(q, sid, shipper))
    {
      ships := ships[sid := Shipment(shipper, None, Pending, [Entry(Pending, shipper)])];
      reqs := reqs[q := Owes(CreatedEvent(sid))];
    }

    method AssignDriverTo(q: RequestId, sid: ShipmentId, driver: UserId, admin: UserId)
      requires Enabled(View(), AssignDriver(q, sid, driver, admin))
      modifies this
      ensures View() == Step(old(View()), AssignDriver(q, sid, driver, admin))
    {
      var matched := FindOneAndUpdate(
        sid,
        (sh: Shipment) => sh.status == Pending,
        (sh: Shipment) => Push(sh.(driver := Some(driver)), Assigned, admin));
      reqs := reqs[q := if matched then Owes(AssignedEvent(sid)) else AssignMissed(sid)];
    }

    /** The second read of assignDriver, which only chooses between 404 and 409. */
    method ExplainAssignMiss(q: RequestId)
      requires Enabled(View(), ExplainMiss(q))
      modifies this
      ensures View() == Step(old(View()), ExplainMiss(q))
    {
      reqs := reqs[q := if reqs[q].sid in ships then Finished(409) else Finished(404)];
    }

    method ReadShipmentForStatus(q: RequestId, sid: ShipmentId, driver: UserId, want: Status)
      requires Enabled(View(), ReadForStatus(q, sid, driver, want))
      modifies this
      ensures View() == Step(old(View()), ReadForStatus(q, sid, driver, want))
    {
      if sid !in ships {
        reqs := reqs[q := Finished(404)];
        return;
      }
      var shipment := ships[sid];
      if shipment.driver.None? || shipment.driver.value != driver {
        reqs := reqs[q := Finished(403)];
        return;
      }
      var allowed := Progression(shipment.status);
      if allowed.None? || allowed.value != want {
        reqs := reqs[q := Finished(400)];
        return;
      }
      reqs := reqs[q := DriverRead(sid, driver, shipment.status, want)];
    }

    method UpdateShipmentStatus(q: RequestId)
      requires Enabled(View(), UpdateStatus(q))
      modifies this
      ensures View() == Step(old(View()), UpdateStatus(q))
    {
      var DriverRead(sid, driver, seen, want) := reqs[q];
      var matched := FindOneAndUpdate(
        sid,
        (sh: Shipment) => sh.driver == Some(driver) && sh.status == seen,
        (sh: Shipment) => Push(sh, want, driver));
      reqs := reqs[q := if matched then Owes(StatusEvent(sid, seen, want)) else Finished(400)];
    }

    method ReadShipmentForCancel(q: RequestId, sid: ShipmentId, shipper: UserId)
      requires Enabled(View(), ReadForCancel(q, sid, shipper))
      modifies this
      ensures View() == Step(old(View()), ReadForCancel(q, sid, shipper))
    {
      if sid !in ships {
        reqs := reqs[q := Finished(404)];
      } else if ships[sid].shipper != shipper {
        reqs := reqs[q := Finished(403)];
      } else if ships[sid].status != Pending {
        reqs := reqs[q := Finished(400)];
      } else {
        reqs := reqs[q := ShipperRead(sid, shipper, ships[sid].status)];
      }
    }

    method CancelShipment(q: RequestId)
      requires Enabled(View(), CancelByShipper(q))
      modifies this
      ensures View() == Step(old(View()), CancelByShipper(q))
    {
      var ShipperRead(sid, shipper, seen) := reqs[q];
      var matched := FindOneAndUpdate(
        sid,
        (sh: Shipment) => sh.shipper == shipper && sh.status == Pending,
        (sh: Shipment) => Push(sh, Cancelled, shipper));
      reqs := reqs[q := if matched then Owes(CancelledEvent(sid, seen, Shipper)) else Finished(400)];
    }

    method ReadShipmentForAdminCancel(q: RequestId, sid: ShipmentId, admin: UserId)
      requires Enabled(View(), ReadForAdminCancel(q, sid, admin))
      modifies this
      ensures View() == Step(old(View()), ReadForAdminCancel(q, sid, admin))
    {
      if sid !in ships {
        reqs := reqs[q := Finished(404)];
      } else if ships[sid].status == Cancelled {
        reqs := reqs[q := Finished(400)];
      } else {
        reqs := reqs[q := AdminRead(sid, admin, ships[sid].status)];
      }
    }

    method CancelShipmentAsAdmin(q: RequestId)
      requires Enabled(View(), CancelByAdmin(q))
      modifies this
      ensures View() == Step(old(View()), CancelByAdmin(q))
    {
      var AdminRead(sid, admin, seen) := reqs[q];
      var matched := FindOneAndUpdate(
        sid,
        (sh: Shipment) => sh.status != Cancelled,
        (sh: Shipment) => Push(sh, Cancelled, admin));
      reqs := reqs[q := if matched then Owes(CancelledEvent(sid, seen, Admin)) else Finished(409)];
    }

    /** createOutboxEvent for the event the request owes. */
    method WriteOwedEvent(q: RequestId)
      requires Enabled(View(), WriteEvent(q))
      modifies this
      ensures View() == Step(old(View()), WriteEvent(q))
    {
      events := events + [reqs[q].ev];
      reqs := reqs[q := Finished(200)];
    }
  }
}
