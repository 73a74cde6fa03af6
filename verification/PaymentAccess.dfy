/** Whose requests change a payment, and what each answer of the payment requests means. */
module PaymentAccess {
  import opened Options
  import opened Payments
  import opened PaymentProofs
  import opened PaymentTheorems

  // ---------------------------------------------------------------- whose requests

  function JobOf(phase: Phase): Option<Job> {
    match phase
    case Found(job) => Some(job)
    case Ready(job) => Some(job)
    case InTxn(job, _) => Some(job)
    case Done(_, _) => None
  }

  /** The request was made for this job, in this user's name. */
  predicate Asks(a: Action, q: RequestId, job: Job) {
    match job
    case Initiate(sid, shipper, amount) => a == ReadForInitiate(q, sid, shipper, amount, true)
    case Confirm(pid, shipper, success) => a == ReadForConfirm(q, pid, shipper, Some(success))
  }

  ghost predicate IsAsked(acts: seq<Action>, q: RequestId, job: Job) {
    exists i :: 0 <= i < |acts| && Asks(acts[i], q, job)
  }

  lemma {:induction false} NewJobIsAsked(w: World, a: Action, q: RequestId)
    requires q in Step(w, a).reqs && JobOf(Step(w, a).reqs[q]).Some?
    ensures (q in w.reqs && JobOf(w.reqs[q]) == JobOf(Step(w, a).reqs[q])) ||
            Asks(a, q, JobOf(Step(w, a).reqs[q]).value)
  {
  }

  /** Every request works on just what it was asked to do. */
  lemma {:induction false} JobsAreAsked(acts: seq<Action>, q: RequestId)
    requires q in Run(EMPTY, acts).reqs && JobOf(Run(EMPTY, acts).reqs[q]).Some?
    ensures IsAsked(acts, q, JobOf(Run(EMPTY, acts).reqs[q]).value)
    decreases |acts|
  {
    var k := |acts| - 1;
    var w := Run(EMPTY, acts[..k]);
    NewJobIsAsked(w, acts[k], q);
    var job := JobOf(Run(EMPTY, acts).reqs[q]).value;
    if q in w.reqs && JobOf(w.reqs[q]) == Some(job) {
      JobsAreAsked(acts[..k], q);
      var i :| 0 <= i < k && Asks(acts[..k][i], q, job);
      assert Asks(acts[i], q, job);
    } else {
      assert Asks(acts[k], q, job);
    }
  }

  /** A commit that changes or adds a payment. */
  lemma {:induction false} ChangeIsCommit(w: World, a: Action, pid: PaymentId)
    requires pid in Step(w, a).db.pays && !(pid in w.db.pays && w.db.pays[pid] == Step(w, a).db.pays[pid])
    ensures Enabled(w, a) && a.Commit? && NoConflict(w.db, w.reqs[a.q].txn)
    ensures w.reqs[a.q].txn.pay.value == (pid, Step(w, a).db.pays[pid])
  {
  }

  /** In every run, a step that makes a payment `paid` or `failed` commits a confirmation that the payment's own
      shipper, who is the shipment's, asked for with just that outcome. */
  lemma {:induction false} OwnersConfirm(acts: seq<Action>, a: Action, pid: PaymentId) returns (i: nat)
    requires pid in Run(EMPTY, acts).db.pays && !Final(Run(EMPTY, acts).db.pays[pid].status)
    requires pid in Step(Run(EMPTY, acts), a).db.pays && Final(Step(Run(EMPTY, acts), a).db.pays[pid].status)
    ensures var p, p' := Run(EMPTY, acts).db.pays[pid], Step(Run(EMPTY, acts), a).db.pays[pid];
            && a.Commit? && i < |acts|
            && acts[i] == ReadForConfirm(a.q, pid, p.shipper, Some(p'.status.Paid?))
            && p.shipment in Run(EMPTY, acts).db.ships
            && p.shipper == Run(EMPTY, acts).db.ships[p.shipment].shipper
  {
    var w := Run(EMPTY, acts);
    RunInv(acts);
    ChangeIsCommit(w, a, pid);
    var InTxn(job, txn) := w.reqs[a.q];
    assert PhaseFits(w.db, w.reqs[a.q]) && Mirrored(w.db, pid);
    if job.Initiate? { InitiateFindsUnpaid(w.db, job, txn); } else { ConfirmFindsPending(w.db, job, txn); }
    JobsAreAsked(acts, a.q);
    i :| 0 <= i < |acts| && Asks(acts[i], a.q, job);
  }

  /** In every run, a step that adds a payment commits an initiation that the shipment's own shipper asked for with
      just that amount, at least 0.01; the payment is pending and the shipper's. */
  lemma {:induction false} OwnersInitiate(acts: seq<Action>, a: Action, pid: PaymentId) returns (i: nat)
    requires pid !in Run(EMPTY, acts).db.pays && pid in Step(Run(EMPTY, acts), a).db.pays
    ensures var w, p := Run(EMPTY, acts), Step(Run(EMPTY, acts), a).db.pays[pid];
            && a.Commit? && i < |acts|
            && acts[i] == ReadForInitiate(a.q, p.shipment, p.shipper, p.amount, true)
            && p.status.Pending? && p.amount >= 0.01
            && p.shipment in w.db.ships && p.shipper == w.db.ships[p.shipment].shipper
  {
    var w := Run(EMPTY, acts);
    RunInv(acts);
    ChangeIsCommit(w, a, pid);
    var InTxn(job, txn) := w.reqs[a.q];
    assert PhaseFits(w.db, w.reqs[a.q]);
    if job.Initiate? { InitiateFindsUnpaid(w.db, job, txn); } else { ConfirmFindsPending(w.db, job, txn); }
    JobsAreAsked(acts, a.q);
    i :| 0 <= i < |acts| && Asks(acts[i], a.q, job);
  }

  // ---------------------------------------------------------------- what the answers mean

  predicate IsDone(phase: Phase, code: int) {
    phase == Done(code, None)
  }

  /** What the read of an initiation answers: 422 for an invalid amount or method, 404 for no shipment, 403 for
      somebody else's, and only a valid one of the own shipment goes on. It changes nothing else. */
  lemma {:induction false} InitiateIsAnswered(w: World, q: RequestId, sid: ShipmentId, shipper: UserId, amount: real,
      validMethod: bool)
    requires q !in w.reqs
    ensures var w' := Step(w, ReadForInitiate(q, sid, shipper, amount, validMethod));
            var valid := amount > 0.0 && validMethod;
            && w' == w.(reqs := w'.reqs) && q in w'.reqs
            && (IsDone(w'.reqs[q], 422) <==> !valid)
            && (IsDone(w'.reqs[q], 404) <==> valid && sid !in w.db.ships)
            && (IsDone(w'.reqs[q], 403) <==> valid && sid in w.db.ships && w.db.ships[sid].shipper != shipper)
            && (!w'.reqs[q].Done? <==> valid && sid in w.db.ships && w.db.ships[sid].shipper == shipper)
  {
  }

  /** What the read of a confirmation answers: 422 without an outcome, 404 for no payment, 403 for somebody else's,
      400 for one that is no longer pending, and only the owner's of a pending payment goes on. */
  lemma {:induction false} ConfirmIsAnswered(w: World, q: RequestId, pid: PaymentId, shipper: UserId,
      simulate: Option<bool>)
    requires q !in w.reqs
    ensures var w' := Step(w, ReadForConfirm(q, pid, shipper, simulate));
            var found := simulate.Some? && pid in w.db.pays;
            && w' == w.(reqs := w'.reqs) && q in w'.reqs
            && (IsDone(w'.reqs[q], 422) <==> simulate.None?)
            && (IsDone(w'.reqs[q], 404) <==> simulate.Some? && pid !in w.db.pays)
            && (IsDone(w'.reqs[q], 403) <==> found && w.db.pays[pid].shipper != shipper)
            && (IsDone(w'.reqs[q], 400) <==>
                 found && w.db.pays[pid].shipper == shipper && w.db.pays[pid].status != Pending)
            && (!w'.reqs[q].Done? <==>
                 found && w.db.pays[pid].shipper == shipper && w.db.pays[pid].status == Pending)
  {
  }

  lemma {:induction false} AnswersAreFinal(w: World, more: seq<Action>, q: RequestId)
    requires q in w.reqs && w.reqs[q].Done?
    ensures q in Run(w, more).reqs && Run(w, more).reqs[q] == w.reqs[q]
    decreases |more|
  {
    if more == [] {
    } else {
      AnswersAreFinal(w, more[..|more| - 1], q);
    }
  }

  /** A confirmation by anybody but the owner is refused with 403, for good, and has changed nothing. */
  lemma {:induction false} StrangersAreRefused(w: World, q: RequestId, pid: PaymentId, shipper: UserId, success: bool,
      more: seq<Action>)
    requires q !in w.reqs && pid in w.db.pays && w.db.pays[pid].shipper != shipper
    ensures var w' := Step(w, ReadForConfirm(q, pid, shipper, Some(success)));
            w'.db == w.db && q in Run(w', more).reqs && Run(w', more).reqs[q] == Done(403, None)
  {
    ConfirmIsAnswered(w, q, pid, shipper, Some(success));
    AnswersAreFinal(Step(w, ReadForConfirm(q, pid, shipper, Some(success))), more, q);
  }

  /** A second payment of a shipment is refused with 409, by the read before the transaction or by the insertion
      in it; an amount below the schema's minimum with 422; and otherwise the insertion is made. */
  lemma {:induction false} SecondPaymentIsRefused(w: World, q: RequestId, newId: PaymentId)
    ensures Enabled(w, CheckExisting(q)) ==>
              var w', job := Step(w, CheckExisting(q)), w.reqs[q].job;
              && w'.db == w.db
              && (IsDone(w'.reqs[q], 409) <==> PaymentsOf(w.db, job.sid) != {})
              && (w'.reqs[q] == Ready(job) <==> PaymentsOf(w.db, job.sid) == {})
    ensures Enabled(w, WritePayment(q, newId)) && w.reqs[q].job.Initiate? ==>
              var w', job, snap := Step(w, WritePayment(q, newId)), w.reqs[q].job, w.reqs[q].txn.snap;
              && w'.db == w.db
              && (IsDone(w'.reqs[q], 422) <==> job.amount < 0.01)
              && (IsDone(w'.reqs[q], 409) <==>
                   job.amount >= 0.01 && (PaymentsOf(snap, job.sid) != {} || newId in snap.pays))
              && (w'.reqs[q].InTxn? <==>
                   job.amount >= 0.01 && PaymentsOf(snap, job.sid) == {} && newId !in snap.pays)
  {
  }

  /** In every run, a confirmation's first write fails, with 500, exactly if the payment of its snapshot is no
      longer pending. */
  lemma {:induction false} LateConfirmationFails(acts: seq<Action>, q: RequestId, newId: PaymentId)
    requires Enabled(Run(EMPTY, acts), WritePayment(q, newId)) && Run(EMPTY, acts).reqs[q].job.Confirm?
    ensures var w := Run(EMPTY, acts);
            var w', pid, snap := Step(w, WritePayment(q, newId)), w.reqs[q].job.pid, w.reqs[q].txn.snap;
            && w'.db == w.db && pid in snap.pays
            && (IsDone(w'.reqs[q], 500) <==> snap.pays[pid].status != Pending)
            && (w'.reqs[q].InTxn? <==> snap.pays[pid].status == Pending)
  {
    RunInv(acts);
    assert PhaseFits(Run(EMPTY, acts).db, Run(EMPTY, acts).reqs[q]);
  }

  /** How a transaction ends: a conflict changes nothing and the callback begins again; without one both writes are
      committed, and the answer is 201 or 200 with the payment exactly if the commit is acknowledged, 500 if not. */
  lemma {:induction false} CommitIsAnswered(w: World, q: RequestId, acknowledged: bool)
    requires Enabled(w, Commit(q, acknowledged))
    ensures var w', job, txn := Step(w, Commit(q, acknowledged)), w.reqs[q].job, w.reqs[q].txn;
            && (w'.reqs[q] == Ready(job) <==> !NoConflict(w.db, txn))
            && (!NoConflict(w.db, txn) ==> w'.db == w.db)
            && (IsDone(w'.reqs[q], 500) <==> NoConflict(w.db, txn) && !acknowledged)
            && (w'.reqs[q] == Done(if job.Initiate? then 201 else 200, txn.pay) <==>
                 NoConflict(w.db, txn) && acknowledged)
  {
  }

  /** An abort changes nothing; the callback begins again, or the request is answered 500. */
  lemma {:induction false} AbortIsAnswered(w: World, q: RequestId, retry: bool)
    requires Enabled(w, Abort(q, retry))
    ensures var w' := Step(w, Abort(q, retry));
            w'.db == w.db && (w'.reqs[q] == Ready(w.reqs[q].job) <==> retry) && (IsDone(w'.reqs[q], 500) <==> !retry)
  {
  }

  /** In every run, an answer with a payment, 201 or 200, is that of a commit of this request. */
  lemma {:induction false} SuccessMeansCommitted(acts: seq<Action>, q: RequestId) returns (i: nat)
    requires q in Run(EMPTY, acts).reqs && Run(EMPTY, acts).reqs[q].Done?
    requires Run(EMPTY, acts).reqs[q].code in {200, 201}
    ensures i < |acts| && acts[i] == Commit(q, true)
    ensures var w := Run(EMPTY, acts[..i]); Enabled(w, acts[i]) && NoConflict(w.db, w.reqs[q].txn)
    decreases |acts|
  {
    var k := |acts| - 1;
    var w := Run(EMPTY, acts[..k]);
    if q in w.reqs && w.reqs[q] == Run(EMPTY, acts).reqs[q] {
      i := SuccessMeansCommitted(acts[..k], q);
      assert acts[..k][..i] == acts[..i];
    } else {
      i := k;
      OnlyCommitsSucceed(w, acts[k], q);
    }
  }

  lemma {:induction false} OnlyCommitsSucceed(w: World, a: Action, q: RequestId)
    requires q in Step(w, a).reqs && Step(w, a).reqs[q].Done? && Step(w, a).reqs[q].code in {200, 201}
    requires !(q in w.reqs && w.reqs[q] == Step(w, a).reqs[q])
    ensures a == Commit(q, true) && Enabled(w, a) && NoConflict(w.db, w.reqs[q].txn)
  {
  }

  // ---------------------------------------------------------------- every answer has its reason

  /** The reason for an answer, in the state in which the request takes this step: 422 an invalid request or an amount
      below the minimum; 404 no such document; 403 somebody else's; 400 a payment that is no longer pending; 409 a
      shipment that has a payment, or an id that is taken; 201 and 200 an acknowledged commit; 500 a payment settled
      by somebody else, a commit without acknowledgement, an abort that is not tried again. */
  predicate Deserves(w: World, a: Action, code: int)
    requires Enabled(w, a)
  {
    match a
    case AddShipment(_, _) => false
    case ReadForInitiate(_, sid, shipper, amount, validMethod) =>
      var valid := amount > 0.0 && validMethod;
      || (code == 422 && !valid)
      || (code == 404 && valid && sid !in w.db.ships)
      || (code == 403 && valid && sid in w.db.ships && w.db.ships[sid].shipper != shipper)
    case ReadForConfirm(_, pid, shipper, simulate) =>
      || (code == 422 && simulate.None?)
      || (code == 404 && simulate.Some? && pid !in w.db.pays)
      || (code == 403 && simulate.Some? && pid in w.db.pays && w.db.pays[pid].shipper != shipper)
      || (code == 400 && simulate.Some? && pid in w.db.pays && w.db.pays[pid].shipper == shipper
          && w.db.pays[pid].status != Pending)
    case CheckExisting(q) => code == 409 && PaymentsOf(w.db, w.reqs[q].job.sid) != {}
    case Begin(_) => false
    case WritePayment(q, newId) =>
      var job, snap := w.reqs[q].job, w.reqs[q].txn.snap;
      if job.Initiate? then
        || (code == 422 && job.amount < 0.01)
        || (code == 409 && job.amount >= 0.01 && (PaymentsOf(snap, job.sid) != {} || newId in snap.pays))
      else code == 500 && job.pid in snap.pays && snap.pays[job.pid].status != Pending
    case WriteShipment(_) => false
    case Commit(q, acknowledged) =>
      && NoConflict(w.db, w.reqs[q].txn)
      && code == if !acknowledged then 500 else if w.reqs[q].job.Initiate? then 201 else 200
    case Abort(_, retry) => code == 500 && !retry
  }

  predicate IsAnswered(w: World, q: RequestId, code: int) {
    q in w.reqs && w.reqs[q].Done? && w.reqs[q].code == code
  }

  ghost predicate ReasonAt(acts: seq<Action>, i: int, q: RequestId, code: int) {
    && 0 <= i < |acts| && !acts[i].AddShipment? && acts[i].q == q && Enabled(Run(EMPTY, acts[..i]), acts[i])
    && Deserves(Run(EMPTY, acts[..i]), acts[i], code)
  }

  lemma {:induction false} OthersAnswer(w: World, a: Action, code: int)
    requires Enabled(w, a) && !a.AddShipment? && !a.WriteShipment?
    requires !(a.WritePayment? && w.reqs[a.q].job.Confirm?)
    ensures IsAnswered(Step(w, a), a.q, code) <==> Deserves(w, a, code)
  {
    match a
    case ReadForInitiate(q, sid, shipper, amount, validMethod) =>
      InitiateIsAnswered(w, q, sid, shipper, amount, validMethod);
    case ReadForConfirm(q, pid, shipper, simulate) => ConfirmIsAnswered(w, q, pid, shipper, simulate);
    case CheckExisting(q) => SecondPaymentIsRefused(w, q, 0);
    case WritePayment(q, newId) => SecondPaymentIsRefused(w, q, newId);
    case Commit(q, acknowledged) => CommitIsAnswered(w, q, acknowledged);
    case Abort(q, retry) => AbortIsAnswered(w, q, retry);
    case _ =>
  }

  lemma {:induction false} StepAnswers(acts: seq<Action>, a: Action, code: int)
    requires Enabled(Run(EMPTY, acts), a) && !a.AddShipment?
    ensures var w := Run(EMPTY, acts); IsAnswered(Step(w, a), a.q, code) <==> Deserves(w, a, code)
  {
    var w := Run(EMPTY, acts);
    if a.WriteShipment? {
      assert Reachable(w);
      SecondWriteAlwaysMatches(w, a.q);
    } else if a.WritePayment? && w.reqs[a.q].job.Confirm? {
      LateConfirmationFails(acts, a.q, a.newId);
    } else {
      OthersAnswer(w, a, code);
    }
  }

  lemma {:induction false} OnlyOwnStepsAnswer(w: World, a: Action, q: RequestId, code: int)
    requires !Enabled(w, a) || a.AddShipment? || a.q != q
    ensures IsAnswered(Step(w, a), q, code) <==> IsAnswered(w, q, code)
  {
  }

  lemma {:induction false} AnsweredIsOver(w: World, a: Action, code: int)
    requires Enabled(w, a) && !a.AddShipment?
    ensures !IsAnswered(w, a.q, code)
  {
  }

  /** In every run a request is answered with a code if and only if the reason for that code held when the request
      took one of its steps. */
  lemma {:induction false} AnswersHaveReasons(acts: seq<Action>, q: RequestId, code: int)
    ensures IsAnswered(Run(EMPTY, acts), q, code) <==> exists i :: ReasonAt(acts, i, q, code)
    decreases |acts|
  {
    if acts == [] {
    } else {
      var k := |acts| - 1;
      var front, a := acts[..k], acts[k];
      var w := Run(EMPTY, front);
      AnswersHaveReasons(front, q, code);
      ReasonsSplit(acts, q, code);
      if Enabled(w, a) && !a.AddShipment? && a.q == q {
        StepAnswers(front, a, code);
        AnsweredIsOver(w, a, code);
      } else {
        OnlyOwnStepsAnswer(w, a, q, code);
      }
    }
  }

  lemma {:induction false} ReasonsSplit(acts: seq<Action>, q: RequestId, code: int)
    requires acts != []
    ensures var k := |acts| - 1;
            (exists i :: ReasonAt(acts, i, q, code)) <==>
            (exists i :: ReasonAt(acts[..k], i, q, code)) || ReasonAt(acts, k, q, code)
  {
    var k := |acts| - 1;
    forall i | 0 <= i < k ensures ReasonAt(acts[..k], i, q, code) <==> ReasonAt(acts, i, q, code) {
      assert acts[..k][..i] == acts[..i] && acts[..k][i] == acts[i];
    }
    if i :| ReasonAt(acts[..k], i, q, code) { assert ReasonAt(acts, i, q, code); }
  }
}
