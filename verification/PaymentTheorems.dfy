/** The promises of the payment requests, over every interleaving, abort and retry. */
module PaymentTheorems {
  import opened Options
  import opened Payments
  import opened PaymentProofs

  /** A shipment reads `unpaid` exactly when it has no payment; otherwise its paymentStatus is the
      status of its one payment. */
  lemma PaymentMirror(w: World, sid: ShipmentId)
    requires Reachable(w) && sid in w.db.ships
    ensures w.db.ships[sid].paymentStatus == Unpaid <==> !HasPayment(w.db, sid)
    ensures forall pid :: pid in w.db.pays && w.db.pays[pid].shipment == sid ==>
              w.db.ships[sid].paymentStatus == w.db.pays[pid].status
    ensures forall p1, p2 :: p1 in PaymentsOf(w.db, sid) && p2 in PaymentsOf(w.db, sid) ==> p1 == p2
  {
    ReachableInv(w);
    forall pid | pid in w.db.pays && w.db.pays[pid].shipment == sid
      ensures w.db.ships[sid].paymentStatus == w.db.pays[pid].status
    {
      assert Mirrored(w.db, pid);
    }
    if HasPayment(w.db, sid) {
      var pid :| pid in w.db.pays && w.db.pays[pid].shipment == sid;
      assert Mirrored(w.db, pid);
    }
  }

  /** The mirror's update inside a transaction always finds its document: the error "Shipment payment
      status changed before confirmation could be applied" is unreachable. */
  lemma SecondWriteAlwaysMatches(w: World, q: RequestId)
    requires Reachable(w) && Enabled(w, WriteShipment(q))
    ensures Step(w, WriteShipment(q)).reqs[q].InTxn? && Step(w, WriteShipment(q)).reqs[q].txn.ship.Some?
  {
    ReachableInv(w);
    assert PhaseFits(w.db, w.reqs[q]);
    var txn := w.reqs[q].txn;
    if txn.pay.value.0 in txn.snap.pays { assert Mirrored(txn.snap, txn.pay.value.0); }
  }

  // ---------------------------------------------------------------- the life of one payment

  predicate Final(status: PaymentStatus) {
    status.Paid? || status.Failed?
  }

  /** In one step a payment stays as it is or leaves `pending`; its shipment, owner and amount never change. */
  predicate Ages(p: Payment, p': Payment) {
    && p'.shipment == p.shipment && p'.shipper == p.shipper && p'.amount == p.amount
    && (p'.status == p.status || (p.status.Pending? && Final(p'.status)))
  }

  ghost predicate AllAge(db: Db, db': Db) {
    forall pid :: pid in db.pays ==> pid in db'.pays && Ages(db.pays[pid], db'.pays[pid])
  }

  lemma StepAges(w: World, a: Action)
    requires Inv(w)
    ensures AllAge(w.db, Step(w, a).db)
  {
    if Enabled(w, a) && a.Commit? {
      CommitAges(w, a);
    } else if !a.AddShipment? && !a.Commit? {
      OthersLeaveDb(w, a);
    }
  }

  lemma CommitAges(w: World, a: Action)
    requires Inv(w) && Enabled(w, a) && a.Commit?
    ensures AllAge(w.db, Step(w, a).db)
  {
    var InTxn(job, txn) := w.reqs[a.q];
    assert PhaseFits(w.db, w.reqs[a.q]);
    if NoConflict(w.db, txn) {
      if job.Initiate? { InitiateFindsUnpaid(w.db, job, txn); } else { ConfirmFindsPending(w.db, job, txn); }
    }
  }

  lemma RunOne(w: World, acts: seq<Action>, a: Action)
    ensures Run(w, acts + [a]) == Step(Run(w, acts), a)
  {
    assert (acts + [a])[..|acts|] == acts;
  }

  /** `paid` and `failed` are terminal: a payment that has reached one of them is the same, amount
      included, in every later state of the run. */
  lemma {:induction false} FinalStays(acts: seq<Action>, more: seq<Action>, pid: PaymentId)
    requires var db := Run(EMPTY, acts).db; pid in db.pays && Final(db.pays[pid].status)
    ensures var db, db' := Run(EMPTY, acts).db, Run(EMPTY, acts + more).db;
            && pid in db'.pays && db'.pays[pid].status == db.pays[pid].status
            && db'.pays[pid].amount == db.pays[pid].amount && db'.pays[pid].shipment == db.pays[pid].shipment
    decreases |more|
  {
    if more == [] {
      assert acts + more == acts;
    } else {
      var front, last := more[..|more| - 1], more[|more| - 1];
      FinalStays(acts, front, pid);
      assert acts + more == acts + front + [last];
      RunOne(EMPTY, acts + front, last);
      RunInv(acts + front);
      StepAges(Run(EMPTY, acts + front), last);
    }
  }

  /** The payment that a successful response carries is the document as it was committed. */
  lemma ResponseIsCommitted(w: World, q: RequestId)
    requires Reachable(w) && Enabled(w, Commit(q, true)) && NoConflict(w.db, w.reqs[q].txn)
    ensures var w' := Step(w, Commit(q, true));
            && w'.reqs[q].Done? && w'.reqs[q].payment.Some?
            && (var (pid, doc) := w'.reqs[q].payment.value;
                && pid in w'.db.pays && w'.db.pays[pid] == doc
                && doc.shipment in w'.db.ships && w'.db.ships[doc.shipment].paymentStatus == doc.status
                && doc.status == (match w.reqs[q].job
                                  case Initiate(_, _, _) => Pending
                                  case Confirm(_, _, success) => Outcome(success)))
  {
    ReachableInv(w);
    StepInv(w, Commit(q, true));
    assert PhaseFits(w.db, w.reqs[q]);
    assert Mirrored(Step(w, Commit(q, true)).db, w.reqs[q].txn.pay.value.0);
  }

  // ---------------------------------------------------------------- revenue

  function Worth(p: Payment): real {
    if p.status.Paid? then p.amount else 0.0
  }

  /** Total amount of the paid payments (the revenue aggregate of src/services/analyticsService.js). */
  ghost function Revenue(pays: map<PaymentId, Payment>): real
    decreases |pays|
  {
    if pays == map[] then 0.0
    else
      var pid :| pid in pays;
      Worth(pays[pid]) + Revenue(pays - {pid})
  }

  lemma {:induction false} RevenueSplit(pays: map<PaymentId, Payment>, pid: PaymentId)
    requires pid in pays
    ensures Revenue(pays) == Worth(pays[pid]) + Revenue(pays - {pid})
    decreases |pays|
  {
    var first :| first in pays && Revenue(pays) == Worth(pays[first]) + Revenue(pays - {first});
    if first != pid {
      RevenueSplit(pays - {first}, pid);
      RevenueSplit(pays - {pid}, first);
      assert pays - {first} - {pid} == pays - {pid} - {first};
    }
  }

  lemma RevenueUpdate(pays: map<PaymentId, Payment>, pid: PaymentId, doc: Payment)
    ensures Revenue(pays[pid := doc]) == Revenue(pays) + Worth(doc) - if pid in pays then Worth(pays[pid]) else 0.0
  {
    RevenueSplit(pays[pid := doc], pid);
    assert pays[pid := doc] - {pid} == pays - {pid};
    if pid in pays { RevenueSplit(pays, pid); } else { assert pays - {pid} == pays; }
  }

  /** What a step earns: the amount of the payment whose successful confirmation it commits. */
  function Earned(w: World, a: Action): real {
    if Enabled(w, a) && a.Commit? && NoConflict(w.db, w.reqs[a.q].txn) && w.reqs[a.q].job.Confirm?
        && w.reqs[a.q].job.success
    then w.reqs[a.q].txn.pay.value.1.amount
    else 0.0
  }

  /** Conservation: the revenue grows by exactly the amount of the payment that the step turns from
      pending to paid, and by nothing else; it never falls. */
  lemma RevenueConserved(w: World, a: Action)
    requires Reachable(w)
    ensures Revenue(Step(w, a).db.pays) == Revenue(w.db.pays) + Earned(w, a)
    ensures Earned(w, a) >= 0.0
    ensures Earned(w, a) > 0.0 <==>
      exists pid :: pid in w.db.pays && w.db.pays[pid].status.Pending? && pid in Step(w, a).db.pays
          && Step(w, a).db.pays[pid].status.Paid?
  {
    ReachableInv(w);
    if Enabled(w, a) && a.Commit? && NoConflict(w.db, w.reqs[a.q].txn) {
      CommitEarns(w, a);
    } else if a.Commit? {
      assert Step(w, a).db == w.db;
    } else if a.AddShipment? {
      assert Step(w, a).db.pays == w.db.pays;
    } else {
      OthersLeaveDb(w, a);
    }
  }

  lemma CommitEarns(w: World, a: Action)
    requires Inv(w) && Enabled(w, a) && a.Commit? && NoConflict(w.db, w.reqs[a.q].txn)
    ensures Revenue(Step(w, a).db.pays) == Revenue(w.db.pays) + Earned(w, a)
    ensures Earned(w, a) >= 0.0
    ensures Earned(w, a) > 0.0 <==>
      exists pid :: pid in w.db.pays && w.db.pays[pid].status.Pending? && pid in Step(w, a).db.pays
          && Step(w, a).db.pays[pid].status.Paid?
  {
    var InTxn(job, txn) := w.reqs[a.q];
    assert PhaseFits(w.db, w.reqs[a.q]);
    var (pid, doc) := txn.pay.value;
    RevenueUpdate(w.db.pays, pid, doc);
    if job.Initiate? {
      InitiateFindsUnpaid(w.db, job, txn);
    } else {
      ConfirmFindsPending(w.db, job, txn);
      assert Mirrored(w.db, pid);
      assert Step(w, a).db.pays[pid] == doc;
    }
  }

  ghost function TotalEarned(acts: seq<Action>): real
    decreases |acts|
  {
    if acts == [] then 0.0
    else TotalEarned(acts[..|acts| - 1]) + Earned(Run(EMPTY, acts[..|acts| - 1]), acts[|acts| - 1])
  }

  /** Over a whole run the revenue is the sum of what its commits earned. */
  lemma {:induction false} RevenueIsWhatWasEarned(acts: seq<Action>)
    ensures Revenue(Run(EMPTY, acts).db.pays) == TotalEarned(acts)
    decreases |acts|
  {
    if acts == [] {
    } else {
      RevenueIsWhatWasEarned(acts[..|acts| - 1]);
      RevenueConserved(Run(EMPTY, acts[..|acts| - 1]), acts[|acts| - 1]);
    }
  }

  // ---------------------------------------------------------------- undisturbed requests succeed

  /** The world with its database as it is and this request in this phase. */
  function At(w: World, q: RequestId, phase: Phase): World {
    w.(reqs := w.reqs[q := phase])
  }

  lemma {:induction false} BeginStep(w: World, q: RequestId, job: Job)
    ensures Step(At(w, q, Ready(job)), Begin(q)) == At(w, q, InTxn(job, Txn(w.db, None, None)))
  {
    assert w.reqs[q := Ready(job)][q := InTxn(job, Txn(w.db, None, None))] ==
        w.reqs[q := InTxn(job, Txn(w.db, None, None))];
  }

  /** The two writes and the commit of a transaction whose snapshot is still the database. */
  lemma {:induction false} CommitStep(w: World, q: RequestId, job: Job, pid: PaymentId, doc: Payment)
    requires doc.shipment in w.db.ships
    requires job.Confirm? ==> w.db.ships[doc.shipment].paymentStatus.Pending?
    requires pid in w.db.pays || PaymentsOf(w.db, doc.shipment) == {}
    ensures var w1 := At(w, q, InTxn(job, Txn(w.db, Some((pid, doc)), None)));
            var w' := Step(Step(w1, WriteShipment(q)), Commit(q, true));
            && q in w'.reqs && w'.reqs[q].Done? && w'.reqs[q].code == (if job.Initiate? then 201 else 200)
            && pid in w'.db.pays && w'.db.pays[pid] == doc
  {
    var w1 := At(w, q, InTxn(job, Txn(w.db, Some((pid, doc)), None)));
    var ship := w.db.ships[doc.shipment];
    var mirror := (doc.shipment, ship.(paymentStatus := doc.status, version := ship.version + 1));
    var w2 := Step(w1, WriteShipment(q));
    assert w2.db == w.db && w2.reqs[q] == InTxn(job, Txn(w.db, Some((pid, doc)), Some(mirror)));
  }

  lemma {:induction false} ConfirmWrite(w: World, q: RequestId, pid: PaymentId, success: bool)
    requires pid in w.db.pays && w.db.pays[pid].status.Pending?
    ensures var p := w.db.pays[pid];
            var job := Confirm(pid, p.shipper, success);
            var doc := p.(status := Outcome(success), version := p.version + 1);
            Step(At(w, q, InTxn(job, Txn(w.db, None, None))), WritePayment(q, 0))
              == At(w, q, InTxn(job, Txn(w.db, Some((pid, doc)), None)))
  {
    var p := w.db.pays[pid];
    var job := Confirm(pid, p.shipper, success);
    var doc := p.(status := Outcome(success), version := p.version + 1);
    var before, after := InTxn(job, Txn(w.db, None, None)), InTxn(job, Txn(w.db, Some((pid, doc)), None));
    assert w.reqs[q := before][q := after] == w.reqs[q := after];
  }

  /** A confirmation that nobody disturbs settles its payment and its shipment. */
  lemma {:induction false} LoneConfirmSucceeds(w: World, q: RequestId, pid: PaymentId, success: bool)
    returns (w': World)
    requires Reachable(w) && q !in w.reqs && pid in w.db.pays && w.db.pays[pid].status.Pending?
    ensures var w1 := Step(Step(w, ReadForConfirm(q, pid, w.db.pays[pid].shipper, Some(success))), Begin(q));
            w' == Step(Step(Step(w1, WritePayment(q, 0)), WriteShipment(q)), Commit(q, true))
    ensures q in w'.reqs && w'.reqs[q].Done? && w'.reqs[q].code == 200
    ensures pid in w'.db.pays && w'.db.pays[pid].status == Outcome(success)
  {
    ReachableInv(w);
    assert Mirrored(w.db, pid);
    w' := ConfirmAlone(w, q, pid, success);
  }

  lemma {:induction false} ConfirmAlone(w: World, q: RequestId, pid: PaymentId, success: bool) returns (w': World)
    requires q !in w.reqs && pid in w.db.pays && w.db.pays[pid].status.Pending? && Mirrored(w.db, pid)
    ensures var w1 := Step(Step(w, ReadForConfirm(q, pid, w.db.pays[pid].shipper, Some(success))), Begin(q));
            w' == Step(Step(Step(w1, WritePayment(q, 0)), WriteShipment(q)), Commit(q, true))
    ensures q in w'.reqs && w'.reqs[q].Done? && w'.reqs[q].code == 200
    ensures pid in w'.db.pays && w'.db.pays[pid].status == Outcome(success)
  {
    var p := w.db.pays[pid];
    var job := Confirm(pid, p.shipper, success);
    var doc := p.(status := Outcome(success), version := p.version + 1);
    assert Step(w, ReadForConfirm(q, pid, p.shipper, Some(success))) == At(w, q, Ready(job));
    BeginStep(w, q, job);
    ConfirmWrite(w, q, pid, success);
    CommitStep(w, q, job, pid, doc);
    w' := Step(Step(At(w, q, InTxn(job, Txn(w.db, Some((pid, doc)), None))), WriteShipment(q)), Commit(q, true));
  }

  lemma {:induction false} InitiateWrite(w: World, q: RequestId, job: Job, pid: PaymentId)
    requires job.Initiate? && job.amount >= MIN_AMOUNT && PaymentsOf(w.db, job.sid) == {} && pid !in w.db.pays
    ensures var doc := Payment(job.sid, job.shipper, job.amount, Pending, 0);
            Step(At(w, q, InTxn(job, Txn(w.db, None, None))), WritePayment(q, pid))
              == At(w, q, InTxn(job, Txn(w.db, Some((pid, doc)), None)))
  {
    var doc := Payment(job.sid, job.shipper, job.amount, Pending, 0);
    var before, after := InTxn(job, Txn(w.db, None, None)), InTxn(job, Txn(w.db, Some((pid, doc)), None));
    assert w.reqs[q := before][q := after] == w.reqs[q := after];
  }

  lemma {:induction false} InitiateReads(w: World, q: RequestId, job: Job)
    requires job.Initiate? && job.amount >= MIN_AMOUNT && q !in w.reqs && PaymentsOf(w.db, job.sid) == {}
    requires job.sid in w.db.ships && w.db.ships[job.sid].shipper == job.shipper
    ensures Step(Step(w, ReadForInitiate(q, job.sid, job.shipper, job.amount, true)), CheckExisting(q)) ==
              At(w, q, Ready(job))
  {
    assert Step(w, ReadForInitiate(q, job.sid, job.shipper, job.amount, true)) == At(w, q, Found(job));
    assert w.reqs[q := Found(job)][q := Ready(job)] == w.reqs[q := Ready(job)];
  }

  /** A payment of an unpaid shipment that nobody disturbs is created. */
  lemma {:induction false} LoneInitiateSucceeds(w: World, q: RequestId, sid: ShipmentId, amount: real, pid: PaymentId)
    returns (w': World)
    requires Reachable(w) && q !in w.reqs && sid in w.db.ships && w.db.ships[sid].paymentStatus == Unpaid
    requires amount >= MIN_AMOUNT && pid !in w.db.pays
    ensures var w1 := Step(Step(w, ReadForInitiate(q, sid, w.db.ships[sid].shipper, amount, true)), CheckExisting(q));
            w' == Step(Step(Step(Step(w1, Begin(q)), WritePayment(q, pid)), WriteShipment(q)), Commit(q, true))
    ensures q in w'.reqs && w'.reqs[q].Done? && w'.reqs[q].code == 201
    ensures pid in w'.db.pays && w'.db.pays[pid] == Payment(sid, w.db.ships[sid].shipper, amount, Pending, 0)
  {
    PaymentMirror(w, sid);
    assert PaymentsOf(w.db, sid) == {};
    w' := InitiateAlone(w, q, Initiate(sid, w.db.ships[sid].shipper, amount), pid);
  }

  lemma {:induction false} InitiateAlone(w: World, q: RequestId, job: Job, pid: PaymentId) returns (w': World)
    requires job.Initiate? && job.amount >= MIN_AMOUNT && q !in w.reqs && PaymentsOf(w.db, job.sid) == {}
    requires job.sid in w.db.ships && w.db.ships[job.sid].shipper == job.shipper && pid !in w.db.pays
    ensures var w1 := Step(Step(w, ReadForInitiate(q, job.sid, job.shipper, job.amount, true)), CheckExisting(q));
            w' == Step(Step(Step(Step(w1, Begin(q)), WritePayment(q, pid)), WriteShipment(q)), Commit(q, true))
    ensures q in w'.reqs && w'.reqs[q].Done? && w'.reqs[q].code == 201
    ensures pid in w'.db.pays && w'.db.pays[pid] == Payment(job.sid, job.shipper, job.amount, Pending, 0)
  {
    var doc := Payment(job.sid, job.shipper, job.amount, Pending, 0);
    InitiateReads(w, q, job);
    BeginStep(w, q, job);
    InitiateWrite(w, q, job, pid);
    CommitStep(w, q, job, pid, doc);
    w' := Step(Step(At(w, q, InTxn(job, Txn(w.db, Some((pid, doc)), None))), WriteShipment(q)), Commit(q, true));
  }
}
