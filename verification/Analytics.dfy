/** The admin dashboard (src/services/analyticsService.js): what its queries answer and how they are put together. */
module Analytics {
  import Events = ShipmentEvents
  import Lifecycle
  import LifecycleTheorems
  import Payments
  import PaymentTheorems

  type Ships = map<Events.ShipmentId, Lifecycle.Shipment>
  type Pays = map<Payments.PaymentId, Payments.Payment>

  datatype Db = Db(ships: Ships, pays: Pays, shippers: nat, drivers: nat)

  datatype Group = Group(id: string, count: nat)

  datatype Dashboard = Dashboard(
    totalShipments: nat, shipmentsByStatus: map<string, nat>, totalShippers: nat, totalDrivers: nat, totalRevenue: real)

  const STATUSES: set<string> := {"pending", "assigned", "picked_up", "in_transit", "delivered", "cancelled"}

  function Name(status: Events.Status): (name: string)
    ensures name in STATUSES
  {
    match status
    case Pending => "pending"
    case Assigned => "assigned"
    case PickedUp => "picked_up"
    case InTransit => "in_transit"
    case Delivered => "delivered"
    case Cancelled => "cancelled"
  }

  function WithStatus(ships: Ships, name: string): set<Events.ShipmentId> {
    set id | id in ships && Name(ships[id].status) == name
  }

  function CountOf(ships: Ships, name: string): nat {
    |WithStatus(ships, name)|
  }

  /** What the status counts of a dashboard should be. */
  function Counts(ships: Ships): map<string, nat> {
    map name | name in STATUSES :: CountOf(ships, name)
  }

  /** An answer of `$group` by status: one group per status that occurs, in any order. */
  ghost predicate IsGroupBy(ships: Ships, groups: seq<Group>) {
    && DistinctIds(groups)
    && (forall i :: 0 <= i < |groups| ==> groups[i].count == CountOf(ships, groups[i].id) > 0)
    && (forall id :: id in ships ==> exists i :: 0 <= i < |groups| && groups[i].id == Name(ships[id].status))
  }

  /** An answer of the revenue aggregate: no row when nothing has been paid. */
  ghost predicate IsRevenue(pays: Pays, rows: seq<real>) {
    if exists pid :: pid in pays && pays[pid].status.Paid? then rows == [PaymentTheorems.Revenue(pays)]
    else rows == []
  }

  ghost function Fresh(db: Db): Dashboard {
    Dashboard(|db.ships|, Counts(db.ships), db.shippers, db.drivers, PaymentTheorems.Revenue(db.pays))
  }

  lemma {:induction false} NothingPaid(pays: Pays)
    requires forall pid :: pid in pays ==> !pays[pid].status.Paid?
    ensures PaymentTheorems.Revenue(pays) == 0.0
    decreases |pays|
  {
    if pays != map[] {
      var pid :| pid in pays;
      PaymentTheorems.RevenueSplit(pays, pid);
      NothingPaid(pays - {pid});
    }
  }

  predicate DistinctIds(groups: seq<Group>) {
    forall i, j :: 0 <= i < j < |groups| ==> groups[i].id != groups[j].id
  }

  /** The loop of buildAdminAnalytics: the counters of the groups' statuses are overwritten. */
  method FillCounters(zeros: map<string, nat>, groups: seq<Group>) returns (counters: map<string, nat>)
    requires DistinctIds(groups)
    ensures counters.Keys == zeros.Keys
    ensures forall k :: 0 <= k < |groups| && groups[k].id in zeros ==> counters[groups[k].id] == groups[k].count
    ensures forall name :: name in zeros ==>
              counters[name] == zeros[name] || exists k :: 0 <= k < |groups| && groups[k].id == name
  {
    counters := zeros;
    var i := 0;
    while i < |groups|
      invariant 0 <= i <= |groups|
      invariant counters.Keys == zeros.Keys
      invariant forall k :: 0 <= k < i && groups[k].id in zeros ==> counters[groups[k].id] == groups[k].count
      invariant forall name :: name in zeros ==>
                  counters[name] == zeros[name] || exists k :: 0 <= k < i && groups[k].id == name
    {
      var id, before := groups[i].id, counters;
      if id in counters {
        counters := counters[id := groups[i].count];
      }
      forall name | name in zeros
        ensures counters[name] == zeros[name] || exists k :: 0 <= k < i + 1 && groups[k].id == name
      {
        if name == id { assert groups[i].id == name; } else { assert counters[name] == before[name]; }
      }
      i := i + 1;
    }
  }

  lemma GroupedOrAbsent(ships: Ships, groups: seq<Group>, name: string)
    requires IsGroupBy(ships, groups)
    ensures CountOf(ships, name) == 0 <==> !exists k :: 0 <= k < |groups| && groups[k].id == name
  {
    if WithStatus(ships, name) != {} {
      var id :| id in WithStatus(ships, name);
      assert id in ships;
    }
  }

  method CountByStatus(ghost ships: Ships, groups: seq<Group>) returns (shipmentsByStatus: map<string, nat>)
    requires IsGroupBy(ships, groups)
    ensures shipmentsByStatus == Counts(ships)
  {
    var zeros: map<string, nat> := map[
      "pending" := 0, "assigned" := 0, "picked_up" := 0, "in_transit" := 0, "delivered" := 0, "cancelled" := 0];
    assert zeros.Keys == STATUSES;
    shipmentsByStatus := FillCounters(zeros, groups);
    forall name | name in STATUSES ensures shipmentsByStatus[name] == CountOf(ships, name) {
      GroupedOrAbsent(ships, groups, name);
    }
  }

  /** buildAdminAnalytics, on answers that its queries gave at possibly different moments. */
  method BuildAdminAnalytics(ghost ships: Ships, ghost pays: Pays, totalShipments: nat, groups: seq<Group>,
                             totalShippers: nat, totalDrivers: nat, revenue: seq<real>) returns (dashboard: Dashboard)
    requires IsGroupBy(ships, groups) && IsRevenue(pays, revenue)
    ensures dashboard == Dashboard(totalShipments, Counts(ships), totalShippers, totalDrivers,
              PaymentTheorems.Revenue(pays))
  {
    var shipmentsByStatus := CountByStatus(ships, groups);
    if |revenue| == 0 { NothingPaid(pays); }
    dashboard := Dashboard(totalShipments, shipmentsByStatus, totalShippers, totalDrivers,
                           if |revenue| > 0 then revenue[0] else 0.0);
  }

  // ---------------------------------------------------------------- conservation

  function SumOf(counts: map<string, nat>, names: seq<string>): nat {
    if names == [] then 0
    else (if names[0] in counts then counts[names[0]] else 0) + SumOf(counts, names[1..])
  }

  function CountAny(ships: Ships, names: seq<string>): set<Events.ShipmentId> {
    set id | id in ships && Name(ships[id].status) in names
  }

  lemma {:induction false} CountsPartition(ships: Ships, names: seq<string>)
    requires forall i, j :: 0 <= i < j < |names| ==> names[i] != names[j]
    requires forall name :: name in names ==> name in STATUSES
    ensures SumOf(Counts(ships), names) == |CountAny(ships, names)|
  {
    if names == [] {
      assert CountAny(ships, names) == {};
    } else {
      CountsPartition(ships, names[1..]);
      assert names[0] !in names[1..];
      assert CountAny(ships, names) == WithStatus(ships, names[0]) + CountAny(ships, names[1..]);
      assert WithStatus(ships, names[0]) !! CountAny(ships, names[1..]);
    }
  }

  /** On one snapshot every shipment is counted under exactly one of the six statuses: the counts add
      up to the total, in whatever order they are listed. */
  lemma CountsConserved(ships: Ships, names: seq<string>)
    requires forall i, j :: 0 <= i < j < |names| ==> names[i] != names[j]
    requires forall name :: name in names <==> name in STATUSES
    ensures SumOf(Counts(ships), names) == |ships|
  {
    CountsPartition(ships, names);
    assert CountAny(ships, names) == ships.Keys;
  }

  /** In every state the controllers reach, the count of a status is the number of shipments whose
      history ends in it. */
  lemma CountsFollowHistories(w: Lifecycle.World, status: Events.Status)
    requires Lifecycle.Reachable(w)
    ensures CountOf(w.ships, Name(status)) == |set id | id in w.ships && EndsIn(w.ships[id], status)|
  {
    forall id | id in w.ships ensures Name(w.ships[id].status) == Name(status) <==> EndsIn(w.ships[id], status) {
      LifecycleTheorems.HistoriesAreLegal(w, id);
      NamesDiffer(w.ships[id].status, status);
    }
    assert WithStatus(w.ships, Name(status)) == set id | id in w.ships && EndsIn(w.ships[id], status);
  }

  predicate EndsIn(ship: Lifecycle.Shipment, status: Events.Status) {
    |ship.history| > 0 && ship.history[|ship.history| - 1].status == status
  }

  lemma NamesDiffer(a: Events.Status, b: Events.Status)
    ensures Name(a) == Name(b) <==> a == b
  {
    assert Name(a)[0] == Name(b)[0] ==> a == b || (a.Pending? && b.PickedUp?) || (a.PickedUp? && b.Pending?);
    assert |"pending"| != |"picked_up"|;
  }

  /** After any run of the payment transactions, the revenue shown is what their commits earned. */
  lemma RevenueIsConserved(acts: seq<Payments.Action>, db: Db)
    requires db.pays == Payments.Run(Payments.EMPTY, acts).db.pays
    ensures Fresh(db).totalRevenue == PaymentTheorems.TotalEarned(acts)
  {
    PaymentTheorems.RevenueIsWhatWasEarned(acts);
  }
}
