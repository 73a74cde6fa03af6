/** What every run of the payment requests keeps. */
module PaymentProofs {
  import opened Options
  import opened Payments

  /** One payment document agrees with its shipment, and no other payment has that shipment. */
  predicate Mirrored(db: Db, pid: PaymentId)
    requires pid in db.pays
  {
    var p := db.pays[pid];
    && p.shipment in db.ships && p.shipper == db.ships[p.shipment].shipper
    && p.status != Unpaid && db.ships[p.shipment].paymentStatus == p.status && p.amount >= MIN_AMOUNT
  }

  ghost predicate Mirror(db: Db) {
    && (forall pid :: pid in db.pays ==> Mirrored(db, pid))
    && (forall p1, p2 :: p1 in db.pays && p2 in db.pays && db.pays[p1].shipment == db.pays[p2].shipment ==> p1 == p2)
    && (forall sid :: sid in db.ships && db.ships[sid].paymentStatus != Unpaid ==> HasPayment(db, sid))
  }

  /** `db` is a later state than `old_`: no document has gone, and one whose version is the same is the same. */
  ghost predicate Later(old_: Db, db: Db) {
    && (forall pid :: pid in old_.pays ==>
          pid in db.pays && db.pays[pid].version >= old_.pays[pid].version
          && db.pays[pid].shipment == old_.pays[pid].shipment && db.pays[pid].shipper == old_.pays[pid].shipper
          && (db.pays[pid].version == old_.pays[pid].version ==> db.pays[pid] == old_.pays[pid]))
    && (forall sid :: sid in old_.ships ==>
          sid in db.ships && db.ships[sid].version >= old_.ships[sid].version
          && db.ships[sid].shipper == old_.ships[sid].shipper
          && (db.ships[sid].version == old_.ships[sid].version ==> db.ships[sid] == old_.ships[sid]))
  }

  /** The buffered writes are what the callback writes for this job. */
  predicate WritesFit(job: Job, txn: Txn) {
    && (txn.ship.Some? ==> txn.pay.Some?)
    && (txn.pay.Some? ==>
         var (pid, doc) := txn.pay.value;
         match job
         case Initiate(sid, shipper, amount) =>
           pid !in txn.snap.pays && amount >= MIN_AMOUNT && doc == Payment(sid, shipper, amount, Pending, 0)
         case Confirm(id, shipper, success) =>
           && pid == id && pid in txn.snap.pays && txn.snap.pays[pid].status == Pending
           && doc == txn.snap.pays[pid].(status := Outcome(success), version := txn.snap.pays[pid].version + 1))
    && (txn.ship.Some? ==>
         var (sid, doc) := txn.ship.value;
         && sid == txn.pay.value.1.shipment && sid in txn.snap.ships
         && doc == txn.snap.ships[sid].(paymentStatus := txn.pay.value.1.status,
              version := txn.snap.ships[sid].version + 1))
  }

  predicate JobFits(db: Db, job: Job) {
    match job
    case Initiate(sid, shipper, amount) => sid in db.ships && db.ships[sid].shipper == shipper && amount > 0.0
    case Confirm(pid, shipper, _) => pid in db.pays && db.pays[pid].shipper == shipper
  }

  ghost predicate PhaseFits(db: Db, phase: Phase) {
    match phase
    case Found(job) => JobFits(db, job)
    case Ready(job) => JobFits(db, job)
    case InTxn(job, txn) => JobFits(txn.snap, job) && Mirror(txn.snap) && Later(txn.snap, db) && WritesFit(job, txn)
    case Done(_, _) => true
  }

  ghost predicate Inv(w: World) {
    && Mirror(w.db)
    && forall q :: q in w.reqs ==> PhaseFits(w.db, w.reqs[q])
  }

  lemma LaterTrans(a: Db, b: Db, c: Db)
    requires Later(a, b) && Later(b, c)
    ensures Later(a, c)
  {
  }

  lemma PhaseStays(db: Db, db': Db, phase: Phase)
    requires PhaseFits(db, phase) && Later(db, db')
    ensures PhaseFits(db', phase)
  {
    if phase.InTxn? { LaterTrans(phase.txn.snap, db, db'); }
  }

  // ---------------------------------------------------------------- commits

  /** What a committed confirmation found: its payment still pending, the mirror pending too. */
  lemma ConfirmFindsPending(db: Db, job: Job, txn: Txn)
    requires Mirror(db) && job.Confirm? && PhaseFits(db, InTxn(job, txn)) && txn.ship.Some? && NoConflict(db, txn)
    ensures var pid := job.pid;
            && txn.pay.value.0 == pid && pid in db.pays && db.pays[pid].status == Pending
            && txn.pay.value.1 == db.pays[pid].(status := Outcome(job.success), version := db.pays[pid].version + 1)
            && txn.ship.value.0 == db.pays[pid].shipment
            && txn.ship.value.1 == db.ships[db.pays[pid].shipment].(paymentStatus := Outcome(job.success),
                 version := db.ships[db.pays[pid].shipment].version + 1)
  {
    assert Mirrored(db, job.pid);
  }

  lemma InitiateFindsUnpaid(db: Db, job: Job, txn: Txn)
    requires Mirror(db) && job.Initiate? && PhaseFits(db, InTxn(job, txn)) && txn.ship.Some? && NoConflict(db, txn)
    ensures var sid := job.sid;
            && sid in db.ships && db.ships[sid].paymentStatus == Unpaid
            && (forall p :: p in db.pays ==> db.pays[p].shipment != sid)
            && txn.pay.value.0 !in db.pays && txn.pay.value.1 == Payment(sid, job.shipper, job.amount, Pending, 0)
            && txn.ship.value == (sid, db.ships[sid].(paymentStatus := Pending, version := db.ships[sid].version + 1))
            && db.ships[sid].shipper == job.shipper
  {
    assert forall pid :: pid in db.pays && db.pays[pid].shipment == job.sid ==> pid in PaymentsOf(db, job.sid);
  }

  /** A payment and its shipment's mirror, set together to the same status. */
  ghost predicate Pair(db: Db, pid: PaymentId, doc: Payment, mirror: Shipment) {
    && doc.shipment in db.ships
    && doc.status != Unpaid && mirror.paymentStatus == doc.status && doc.amount >= MIN_AMOUNT
    && mirror.shipper == db.ships[doc.shipment].shipper == doc.shipper
    && mirror.version > db.ships[doc.shipment].version
    && (pid in db.pays ==>
         && doc.version > db.pays[pid].version
         && doc.shipment == db.pays[pid].shipment && doc.shipper == db.pays[pid].shipper)
    && (forall p :: p in db.pays && p != pid ==> db.pays[p].shipment != doc.shipment)
  }

  function SetPair(db: Db, pid: PaymentId, doc: Payment, mirror: Shipment): Db {
    Db(db.ships[doc.shipment := mirror], db.pays[pid := doc])
  }

  lemma {:induction false} PairKeepsMirror(db: Db, pid: PaymentId, doc: Payment, mirror: Shipment)
    requires Mirror(db) && Pair(db, pid, doc, mirror)
    ensures Mirror(SetPair(db, pid, doc, mirror)) && Later(db, SetPair(db, pid, doc, mirror))
  {
    var db' := SetPair(db, pid, doc, mirror);
    forall p | p in db'.pays ensures Mirrored(db', p) {
      PairMirrors(db, pid, doc, mirror, p);
    }
    forall s | s in db'.ships && db'.ships[s].paymentStatus != Unpaid ensures HasPayment(db', s) {
      PairIsFound(db, pid, doc, mirror, s);
    }
    PairIsLater(db, pid, doc, mirror);
  }

  lemma {:induction false} PairMirrors(db: Db, pid: PaymentId, doc: Payment, mirror: Shipment, p: PaymentId)
    requires Pair(db, pid, doc, mirror) && p in SetPair(db, pid, doc, mirror).pays && (p in db.pays ==> Mirrored(db, p))
    ensures Mirrored(SetPair(db, pid, doc, mirror), p)
  {
  }

  lemma {:induction false} PairIsFound(db: Db, pid: PaymentId, doc: Payment, mirror: Shipment, s: ShipmentId)
    requires Pair(db, pid, doc, mirror) && (s != doc.shipment ==> HasPayment(db, s))
    ensures HasPayment(SetPair(db, pid, doc, mirror), s)
  {
    var db' := SetPair(db, pid, doc, mirror);
    if s == doc.shipment {
      assert pid in db'.pays && db'.pays[pid].shipment == s;
    } else {
      var p :| p in db.pays && db.pays[p].shipment == s;
      assert p in db'.pays && db'.pays[p].shipment == s;
    }
  }

  lemma {:induction false} PairIsLater(db: Db, pid: PaymentId, doc: Payment, mirror: Shipment)
    requires Pair(db, pid, doc, mirror)
    ensures Later(db, SetPair(db, pid, doc, mirror))
  {
  }

  lemma InitiateIsPair(db: Db, job: Job, txn: Txn)
    requires Mirror(db) && job.Initiate? && PhaseFits(db, InTxn(job, txn)) && txn.ship.Some? && NoConflict(db, txn)
    ensures Pair(db, txn.pay.value.0, txn.pay.value.1, txn.ship.value.1) && txn.ship.value.0 == txn.pay.value.1.shipment
  {
    InitiateFindsUnpaid(db, job, txn);
  }

  lemma ConfirmIsPair(db: Db, job: Job, txn: Txn)
    requires Mirror(db) && job.Confirm? && PhaseFits(db, InTxn(job, txn)) && txn.ship.Some? && NoConflict(db, txn)
    ensures Pair(db, txn.pay.value.0, txn.pay.value.1, txn.ship.value.1) && txn.ship.value.0 == txn.pay.value.1.shipment
  {
    ConfirmFindsPending(db, job, txn);
    assert Mirrored(db, job.pid);
  }

  lemma CommitKeepsMirror(db: Db, job: Job, txn: Txn)
    requires Mirror(db) && PhaseFits(db, InTxn(job, txn)) && txn.ship.Some? && NoConflict(db, txn)
    ensures Mirror(ApplyWrites(db, txn)) && Later(db, ApplyWrites(db, txn))
  {
    if job.Initiate? { InitiateIsPair(db, job, txn); } else { ConfirmIsPair(db, job, txn); }
    var (pid, doc) := txn.pay.value;
    PairKeepsMirror(db, pid, doc, txn.ship.value.1);
    assert ApplyWrites(db, txn) == SetPair(db, pid, doc, txn.ship.value.1);
  }

  // ---------------------------------------------------------------- steps

  lemma StepDb(w: World, a: Action)
    requires Inv(w)
    ensures Mirror(Step(w, a).db) && Later(w.db, Step(w, a).db)
  {
    if Enabled(w, a) {
      if a.AddShipment? {
        AddKeepsMirror(w.db, a.sid, a.shipper);
      } else if a.Commit? {
        var InTxn(job, txn) := w.reqs[a.q];
        assert PhaseFits(w.db, w.reqs[a.q]);
        if NoConflict(w.db, txn) { CommitKeepsMirror(w.db, job, txn); }
      } else {
        OthersLeaveDb(w, a);
      }
    }
  }

  lemma OthersLeaveDb(w: World, a: Action)
    requires !a.AddShipment? && !a.Commit?
    ensures Step(w, a).db == w.db
  {
  }

  lemma AddKeepsMirror(db: Db, sid: ShipmentId, shipper: UserId)
    requires Mirror(db) && sid !in db.ships
    ensures var db' := db.(ships := db.ships[sid := Shipment(shipper, Unpaid, 0)]); Mirror(db') && Later(db, db')
  {
    var db' := db.(ships := db.ships[sid := Shipment(shipper, Unpaid, 0)]);
    forall p | p in db'.pays ensures Mirrored(db', p) {
      assert Mirrored(db, p);
    }
    forall s | s in db'.ships && db'.ships[s].paymentStatus != Unpaid ensures HasPayment(db', s) {
      assert HasPayment(db, s);
      var p :| p in db.pays && db.pays[p].shipment == s;
      assert p in db'.pays && db'.pays[p].shipment == s;
    }
  }

  lemma JobStays(db: Db, db': Db, job: Job)
    requires JobFits(db, job) && Later(db, db')
    ensures JobFits(db', job)
  {
  }

  /** A read before the transaction, for any phase or none the request may have had. */
  lemma {:induction false} ReadFits(w: World, a: Action)
    requires Enabled(w, a) && (a.ReadForInitiate? || a.ReadForConfirm? || a.CheckExisting?)
    requires a.q in w.reqs ==> PhaseFits(w.db, w.reqs[a.q])
    ensures a.q in Step(w, a).reqs && Step(w, a).db == w.db && PhaseFits(w.db, Step(w, a).reqs[a.q])
  {
  }

  lemma {:induction false} BeginFits(w: World, q: RequestId)
    requires Enabled(w, Begin(q)) && PhaseFits(w.db, w.reqs[q]) && Mirror(w.db)
    ensures Step(w, Begin(q)).db == w.db
    ensures q in Step(w, Begin(q)).reqs && PhaseFits(w.db, Step(w, Begin(q)).reqs[q])
  {
  }

  lemma {:induction false} FirstWriteFits(w: World, q: RequestId, newId: PaymentId)
    requires Enabled(w, WritePayment(q, newId)) && PhaseFits(w.db, w.reqs[q])
    ensures Step(w, WritePayment(q, newId)).db == w.db
    ensures q in Step(w, WritePayment(q, newId)).reqs && PhaseFits(w.db, Step(w, WritePayment(q, newId)).reqs[q])
  {
  }

  lemma {:induction false} SecondWriteFits(w: World, q: RequestId)
    requires Enabled(w, WriteShipment(q)) && PhaseFits(w.db, w.reqs[q])
    ensures Step(w, WriteShipment(q)).db == w.db
    ensures q in Step(w, WriteShipment(q)).reqs && PhaseFits(w.db, Step(w, WriteShipment(q)).reqs[q])
  {
  }

  lemma {:induction false} CommitFits(w: World, q: RequestId, acknowledged: bool)
    requires Enabled(w, Commit(q, acknowledged)) && PhaseFits(w.db, w.reqs[q])
    ensures var w' := Step(w, Commit(q, acknowledged)); q in w'.reqs && PhaseFits(w'.db, w'.reqs[q])
  {
    JobStays(w.reqs[q].txn.snap, w.db, w.reqs[q].job);
  }

  lemma {:induction false} AbortFits(w: World, q: RequestId, retry: bool)
    requires Enabled(w, Abort(q, retry)) && PhaseFits(w.db, w.reqs[q])
    ensures Step(w, Abort(q, retry)).db == w.db
    ensures q in Step(w, Abort(q, retry)).reqs && PhaseFits(w.db, Step(w, Abort(q, retry)).reqs[q])
  {
    JobStays(w.reqs[q].txn.snap, w.db, w.reqs[q].job);
  }

  /** The phase that a step gives to the request it belongs to. */
  lemma {:induction false} NewPhase(w: World, a: Action)
    requires Mirror(w.db) && Enabled(w, a) && !a.AddShipment?
    requires a.q in w.reqs ==> PhaseFits(w.db, w.reqs[a.q])
    ensures a.q in Step(w, a).reqs && PhaseFits(Step(w, a).db, Step(w, a).reqs[a.q])
  {
    match a
    case Begin(q) => BeginFits(w, q);
    case WritePayment(q, newId) => FirstWriteFits(w, q, newId);
    case WriteShipment(q) => SecondWriteFits(w, q);
    case Commit(q, acknowledged) => CommitFits(w, q, acknowledged);
    case Abort(q, retry) => AbortFits(w, q, retry);
    case _ => ReadFits(w, a);
  }

  lemma OthersKeepPhase(w: World, a: Action, q: RequestId)
    requires q in Step(w, a).reqs && (!Enabled(w, a) || a.AddShipment? || q != a.q)
    ensures q in w.reqs && Step(w, a).reqs[q] == w.reqs[q]
  {
  }

  lemma StepInv(w: World, a: Action)
    requires Inv(w)
    ensures Inv(Step(w, a)) && Later(w.db, Step(w, a).db)
  {
    StepDb(w, a);
    var w' := Step(w, a);
    forall q | q in w'.reqs ensures PhaseFits(w'.db, w'.reqs[q]) {
      if Enabled(w, a) && !a.AddShipment? && q == a.q {
        NewPhase(w, a);
      } else {
        OthersKeepPhase(w, a, q);
        PhaseStays(w.db, w'.db, w.reqs[q]);
      }
    }
  }

  lemma {:induction false} RunInv(acts: seq<Action>)
    ensures Inv(Run(EMPTY, acts))
    decreases |acts|
  {
    if acts == [] {
    } else {
      RunInv(acts[..|acts| - 1]);
      StepInv(Run(EMPTY, acts[..|acts| - 1]), acts[|acts| - 1]);
    }
  }

  lemma ReachableInv(w: World)
    requires Reachable(w)
    ensures Inv(w)
  {
    var acts: seq<Action> :| w == Run(EMPTY, acts);
    RunInv(acts);
  }
}
