/** Who may change a shipment, who has signed each of its entries, and what each answer means. */
module LifecycleAccess {
  import opened Options
  import opened ShipmentEvents
  import opened Lifecycle
  import opened LifecycleProofs

  // ---------------------------------------------------------------- every entry is signed

  /** The action with which the request in this phase began. */
  predicate Opens(a: Action, q: RequestId, phase: Phase) {
    match phase
    case DriverRead(sid, driver, _, want) => a == ReadForStatus(q, sid, driver, want)
    case ShipperRead(sid, shipper, _) => a == ReadForCancel(q, sid, shipper)
    case AdminRead(sid, admin, _) => a == ReadForAdminCancel(q, sid, admin)
    case _ => true
  }

  ghost predicate Opened(acts: seq<Action>, q: RequestId, phase: Phase) {
    exists i :: 0 <= i < |acts| && Opens(acts[i], q, phase)
  }

  ghost predicate AllOpened(acts: seq<Action>) {
    forall q :: q in Run(EMPTY, acts).reqs ==> Opened(acts, q, Run(EMPTY, acts).reqs[q])
  }

  /** Somebody asks for this entry of the shipment, in the author's own name. */
  predicate Asks(a: Action, sid: ShipmentId, entry: Entry) {
    match entry.status
    case Pending => a.Create? && a.sid == sid && a.shipper == entry.author
    case Assigned => a.AssignDriver? && a.sid == sid && a.admin == entry.author
    case Cancelled => (a.ReadForCancel? && a.sid == sid && a.shipper == entry.author)
        || (a.ReadForAdminCancel? && a.sid == sid && a.admin == entry.author)
    case _ => a.ReadForStatus? && a.sid == sid && a.driver == entry.author && a.want == entry.status
  }

  ghost predicate IsAsked(acts: seq<Action>, sid: ShipmentId, entry: Entry) {
    exists i :: 0 <= i < |acts| && Asks(acts[i], sid, entry)
  }

  ghost predicate AllAsked(acts: seq<Action>) {
    forall sid, k ::
      sid in Run(EMPTY, acts).ships && 0 <= k < |Run(EMPTY, acts).ships[sid].history| ==>
        IsAsked(acts, sid, Run(EMPTY, acts).ships[sid].history[k])
  }

  lemma {:induction false} RunMore(acts: seq<Action>, a: Action)
    ensures Run(EMPTY, acts + [a]) == Step(Run(EMPTY, acts), a)
    ensures forall i :: 0 <= i < |acts| ==> (acts + [a])[i] == acts[i]
  {
    assert (acts + [a])[..|acts|] == acts;
  }

  lemma {:induction false} OpenedStays(acts: seq<Action>, a: Action, q: RequestId, phase: Phase)
    requires Opened(acts, q, phase) || Opens(a, q, phase)
    ensures Opened(acts + [a], q, phase)
  {
    if Opens(a, q, phase) {
      assert (acts + [a])[|acts|] == a;
    } else {
      var i :| 0 <= i < |acts| && Opens(acts[i], q, phase);
      assert (acts + [a])[i] == acts[i];
    }
  }

  lemma {:induction false} AskedStays(acts: seq<Action>, a: Action, sid: ShipmentId, entry: Entry)
    requires IsAsked(acts, sid, entry) || Asks(a, sid, entry)
    ensures IsAsked(acts + [a], sid, entry)
  {
    if Asks(a, sid, entry) {
      assert (acts + [a])[|acts|] == a;
    } else {
      var i :| 0 <= i < |acts| && Asks(acts[i], sid, entry);
      assert (acts + [a])[i] == acts[i];
    }
  }

  /** A request's phase after a step is its old one, or the step opens it. */
  lemma {:induction false} NewPhaseOpens(w: World, a: Action, q: RequestId)
    requires q in Step(w, a).reqs
    ensures (q in w.reqs && w.reqs[q] == Step(w, a).reqs[q]) || Opens(a, q, Step(w, a).reqs[q])
  {
  }

  /** A new entry is asked for by the step itself ... */
  lemma {:induction false} DirectEntryIsAsked(w: World, a: Action, sid: ShipmentId, k: nat)
    requires sid in Step(w, a).ships && k < |Step(w, a).ships[sid].history| && (a.Create? || a.AssignDriver?)
    requires sid in w.ships ==> k >= |w.ships[sid].history|
    ensures Asks(a, sid, Step(w, a).ships[sid].history[k])
  {
  }

  /** ... or by what its request has read, with which it was opened. */
  lemma {:induction false} LaterEntryIsAsked(w: World, a: Action, sid: ShipmentId, k: nat, opening: Action)
    requires a.UpdateStatus? || a.CancelByShipper? || a.CancelByAdmin?
    requires Enabled(w, a) && LegalRead(w, w.reqs[a.q]) && Opens(opening, a.q, w.reqs[a.q])
    requires sid in Step(w, a).ships && k < |Step(w, a).ships[sid].history|
    requires sid in w.ships ==> k >= |w.ships[sid].history|
    ensures Asks(opening, sid, Step(w, a).ships[sid].history[k])
  {
  }

  lemma {:induction false} NoNewEntry(w: World, a: Action)
    requires Enabled(w, a) ==>
               !(a.Create? || a.AssignDriver? || a.UpdateStatus? || a.CancelByShipper? || a.CancelByAdmin?)
    ensures Step(w, a).ships == w.ships
  {
  }

  lemma {:induction false} NewEntryIsAsked(w: World, a: Action, sid: ShipmentId, k: nat, opening: Action)
    requires LegalReads(w) && sid in Step(w, a).ships && k < |Step(w, a).ships[sid].history|
    requires sid in w.ships ==> k >= |w.ships[sid].history|
    requires Enabled(w, a) && a.q in w.reqs ==> Opens(opening, a.q, w.reqs[a.q])
    ensures Asks(a, sid, Step(w, a).ships[sid].history[k]) || Asks(opening, sid, Step(w, a).ships[sid].history[k])
  {
    if a.Create? || a.AssignDriver? {
      DirectEntryIsAsked(w, a, sid, k);
    } else if Enabled(w, a) && (a.UpdateStatus? || a.CancelByShipper? || a.CancelByAdmin?) {
      LaterEntryIsAsked(w, a, sid, k, opening);
    } else {
      NoNewEntry(w, a);
    }
  }

  lemma {:induction false} StepOpened(acts: seq<Action>, a: Action)
    requires AllOpened(acts)
    ensures AllOpened(acts + [a])
  {
    var w := Run(EMPTY, acts);
    RunMore(acts, a);
    forall q | q in Step(w, a).reqs ensures Opened(acts + [a], q, Step(w, a).reqs[q]) {
      NewPhaseOpens(w, a, q);
      OpenedStays(acts, a, q, Step(w, a).reqs[q]);
    }
  }

  lemma {:induction false} StepAsked(acts: seq<Action>, a: Action)
    requires AllOpened(acts) && AllAsked(acts)
    ensures AllAsked(acts + [a])
  {
    var w := Run(EMPTY, acts);
    var w' := Step(w, a);
    RunMore(acts, a);
    RunInv(acts);
    StepInv(w, a);
    forall sid, k | sid in w'.ships && 0 <= k < |w'.ships[sid].history|
      ensures IsAsked(acts + [a], sid, w'.ships[sid].history[k])
    {
      if sid in w.ships && k < |w.ships[sid].history| {
        assert Grows(w.ships[sid], w'.ships[sid]);
        assert w'.ships[sid].history[k] == w.ships[sid].history[k];
      } else {
        EntryOrigin(acts, a, sid, k);
      }
      AskedStays(acts, a, sid, w'.ships[sid].history[k]);
    }
  }

  lemma {:induction false} EntryOrigin(acts: seq<Action>, a: Action, sid: ShipmentId, k: nat)
    requires AllOpened(acts) && LegalReads(Run(EMPTY, acts))
    requires var w' := Step(Run(EMPTY, acts), a); sid in w'.ships && k < |w'.ships[sid].history|
    requires var w := Run(EMPTY, acts); sid in w.ships ==> k >= |w.ships[sid].history|
    ensures var entry := Step(Run(EMPTY, acts), a).ships[sid].history[k];
            Asks(a, sid, entry) || IsAsked(acts, sid, entry)
  {
    var w := Run(EMPTY, acts);
    var opening := a;
    if Enabled(w, a) && a.q in w.reqs {
      assert Opened(acts, a.q, w.reqs[a.q]);
      var i :| 0 <= i < |acts| && Opens(acts[i], a.q, w.reqs[a.q]);
      opening := acts[i];
    }
    NewEntryIsAsked(w, a, sid, k, opening);
  }

  lemma {:induction false} RunAsked(acts: seq<Action>)
    ensures AllOpened(acts) && AllAsked(acts)
    decreases |acts|
  {
    if acts == [] {
    } else {
      var front, last := acts[..|acts| - 1], acts[|acts| - 1];
      RunAsked(front);
      assert front + [last] == acts;
      StepOpened(front, last);
      StepAsked(front, last);
    }
  }

  /** In every run each entry of each history is signed by a user who asked for just that: the shipper who
      created the shipment, the administrator who assigned it, the driver who reported that status, the shipper
      or the administrator who asked for the cancellation. */
  lemma {:induction false} EveryEntryIsSigned(acts: seq<Action>, sid: ShipmentId, k: nat) returns (i: nat)
    requires sid in Run(EMPTY, acts).ships && k < |Run(EMPTY, acts).ships[sid].history|
    ensures i < |acts| && Asks(acts[i], sid, Run(EMPTY, acts).ships[sid].history[k])
  {
    RunAsked(acts);
    var entry := Run(EMPTY, acts).ships[sid].history[k];
    assert IsAsked(acts, sid, entry);
    i :| 0 <= i < |acts| && Asks(acts[i], sid, entry);
  }

  // ---------------------------------------------------------------- cancellations by the shipper

  /** Who is about to cancel as the shipper is the shipment's shipper. */
  ghost predicate ShippersRead(w: World) {
    forall q :: q in w.reqs && w.reqs[q].ShipperRead? ==>
      w.reqs[q].sid in w.ships && w.ships[w.reqs[q].sid].shipper == w.reqs[q].shipper
  }

  /** An event of a cancellation by the shipper: the last entry is that cancellation, in the shipper's name. */
  predicate CancelIsSigned(w: World, ev: Event) {
    ev.cancelledBy == Some(Shipper) ==>
      && ev.shipment in w.ships && w.ships[ev.shipment].history != []
      && w.ships[ev.shipment].status.Cancelled?
      && (var sh := w.ships[ev.shipment]; sh.history[|sh.history| - 1] == Entry(Cancelled, sh.shipper))
  }

  ghost predicate CancelsAreSigned(w: World) {
    && (forall i :: 0 <= i < |w.events| ==> CancelIsSigned(w, w.events[i]))
    && (forall q :: q in w.reqs && Silent(w.reqs[q]) ==> CancelIsSigned(w, w.reqs[q].ev))
  }

  lemma {:induction false} StepShippers(w: World, a: Action)
    requires ShippersRead(w)
    ensures ShippersRead(Step(w, a))
  {
  }

  /** Nothing happens to a cancelled shipment. */
  lemma {:induction false} CancelledStays(w: World, a: Action, sid: ShipmentId)
    requires LegalReads(w) && sid in w.ships && w.ships[sid].status.Cancelled?
    ensures sid in Step(w, a).ships && Step(w, a).ships[sid] == w.ships[sid]
  {
    if a.UpdateStatus? && Enabled(w, a) { assert LegalRead(w, w.reqs[a.q]); }
  }

  lemma {:induction false} SignedStays(w: World, a: Action, ev: Event)
    requires LegalReads(w) && CancelIsSigned(w, ev)
    ensures CancelIsSigned(Step(w, a), ev)
  {
    if ev.cancelledBy == Some(Shipper) { CancelledStays(w, a, ev.shipment); }
  }

  /** What a step announces or comes to owe was owed before, or is the request's own update just made. */
  lemma {:induction false} NewEventIsSigned(w: World, a: Action, q: RequestId)
    requires ShippersRead(w) && q in Step(w, a).reqs && Silent(Step(w, a).reqs[q])
    requires !(q in w.reqs && Silent(w.reqs[q]) && w.reqs[q].ev == Step(w, a).reqs[q].ev)
    ensures CancelIsSigned(Step(w, a), Step(w, a).reqs[q].ev)
  {
  }

  lemma {:induction false} NewRecordWasOwed(w: World, a: Action, i: nat)
    requires i < |Step(w, a).events| && i >= |w.events|
    ensures Enabled(w, a) && a.WriteEvent? && Silent(w.reqs[a.q]) && Step(w, a).events[i] == w.reqs[a.q].ev
  {
  }

  lemma {:induction false} OldRecordStays(w: World, a: Action, i: nat)
    requires i < |w.events|
    ensures i < |Step(w, a).events| && Step(w, a).events[i] == w.events[i]
  {
  }

  lemma {:induction false} StepSigned(w: World, a: Action)
    requires LegalReads(w) && ShippersRead(w) && CancelsAreSigned(w)
    ensures CancelsAreSigned(Step(w, a))
  {
    var w' := Step(w, a);
    forall i | 0 <= i < |w'.events| ensures CancelIsSigned(w', w'.events[i]) {
      if i < |w.events| {
        OldRecordStays(w, a, i);
        SignedStays(w, a, w.events[i]);
      } else {
        NewRecordWasOwed(w, a, i);
        SignedStays(w, a, w.reqs[a.q].ev);
      }
    }
    forall q | q in w'.reqs && Silent(w'.reqs[q]) ensures CancelIsSigned(w', w'.reqs[q].ev) {
      if q in w.reqs && Silent(w.reqs[q]) && w.reqs[q].ev == w'.reqs[q].ev {
        SignedStays(w, a, w.reqs[q].ev);
      } else {
        NewEventIsSigned(w, a, q);
      }
    }
  }

  lemma {:induction false} RunSigned(acts: seq<Action>)
    ensures ShippersRead(Run(EMPTY, acts)) && CancelsAreSigned(Run(EMPTY, acts))
    decreases |acts|
  {
    if acts == [] {
    } else {
      var w := Run(EMPTY, acts[..|acts| - 1]);
      RunSigned(acts[..|acts| - 1]);
      RunInv(acts[..|acts| - 1]);
      StepShippers(w, acts[|acts| - 1]);
      StepSigned(w, acts[|acts| - 1]);
    }
  }

  /** In every run, a cancellation announced as the shipper's, recorded or still owed, is the last entry of its
      shipment and signed by the shipment's own shipper. */
  lemma {:induction false} ShippersCancelTheirOwn(acts: seq<Action>, ev: Event)
    requires var w := Run(EMPTY, acts);
             ev in w.events || exists q :: q in w.reqs && Silent(w.reqs[q]) && w.reqs[q].ev == ev
    requires ev.cancelledBy == Some(Shipper)
    ensures var w := Run(EMPTY, acts);
            && ev.shipment in w.ships && w.ships[ev.shipment].history != []
            && (var sh := w.ships[ev.shipment]; sh.history[|sh.history| - 1] == Entry(Cancelled, sh.shipper))
  {
    RunSigned(acts);
    var w := Run(EMPTY, acts);
    if ev in w.events {
      var i :| 0 <= i < |w.events| && w.events[i] == ev;
      assert CancelIsSigned(w, w.events[i]);
    }
  }

  // ---------------------------------------------------------------- what the answers mean

  predicate IsRead(a: Action) {
    a.ReadForStatus? || a.ReadForCancel? || a.ReadForAdminCancel?
  }

  /** A driver may report on the shipments assigned to it, a shipper cancel its own, an administrator any. */
  predicate Entitled(a: Action, sh: Shipment)
    requires IsRead(a)
  {
    match a
    case ReadForStatus(_, _, driver, _) => sh.driver == Some(driver)
    case ReadForCancel(_, _, shipper) => sh.shipper == shipper
    case ReadForAdminCancel(_, _, _) => true
  }

  /** Reports follow the delivery path, a shipper cancels before an assignment, an administrator cancels what is
      not cancelled. */
  predicate Timely(a: Action, status: Status)
    requires IsRead(a)
  {
    match a
    case ReadForStatus(_, _, _, want) => want != Assigned && MayFollow(status, want) && want != Cancelled
    case ReadForCancel(_, _, _) => status == Pending
    case ReadForAdminCancel(_, _, _) => MayFollow(status, Cancelled)
  }

  /** What the first read of a request answers: 404 for no shipment, 403 for somebody else's, 400 for one in the
      wrong state, and only the entitled go on, in time. It changes nothing else. */
  lemma {:induction false} ReadIsAnswered(w: World, a: Action)
    requires IsRead(a) && Enabled(w, a)
    ensures var w' := Step(w, a);
            && w' == w.(reqs := w'.reqs) && a.q in w'.reqs
            && (w'.reqs[a.q] == Finished(404) <==> a.sid !in w.ships)
            && (w'.reqs[a.q] == Finished(403) <==> a.sid in w.ships && !Entitled(a, w.ships[a.sid]))
            && (w'.reqs[a.q] == Finished(400) <==>
                 a.sid in w.ships && Entitled(a, w.ships[a.sid]) && !Timely(a, w.ships[a.sid].status))
            && (!w'.reqs[a.q].Finished? <==>
                 a.sid in w.ships && Entitled(a, w.ships[a.sid]) && Timely(a, w.ships[a.sid].status))
  {
  }

  lemma {:induction false} AnswersAreFinal(w: World, more: seq<Action>, q: RequestId)
    requires q in w.reqs && w.reqs[q].Finished?
    ensures q in Run(w, more).reqs && Run(w, more).reqs[q] == w.reqs[q]
    decreases |more|
  {
    if more == [] {
    } else {
      AnswersAreFinal(w, more[..|more| - 1], q);
    }
  }

  /** Somebody else's request is refused with 403, for good, and has changed nothing. */
  lemma {:induction false} StrangersAreRefused(w: World, a: Action, more: seq<Action>)
    requires IsRead(a) && Enabled(w, a) && a.sid in w.ships && !Entitled(a, w.ships[a.sid])
    ensures Step(w, a).ships == w.ships && Step(w, a).events == w.events
    ensures a.q in Run(Step(w, a), more).reqs && Run(Step(w, a), more).reqs[a.q] == Finished(403)
  {
    ReadIsAnswered(w, a);
    AnswersAreFinal(Step(w, a), more, a.q);
  }

  /** An assignment that finds no pending shipment changes nothing and is explained by a second read: 404 for no
      shipment, 409 for one that is no longer pending. */
  lemma {:induction false} AssignmentIsAnswered(w: World, q: RequestId, sid: ShipmentId, driver: UserId, admin: UserId)
    requires Enabled(w, AssignDriver(q, sid, driver, admin))
    ensures var w' := Step(w, AssignDriver(q, sid, driver, admin));
            && q in w'.reqs && (w'.reqs[q] == AssignMissed(sid) <==> !(sid in w.ships && w.ships[sid].status.Pending?))
            && (w'.reqs[q] == AssignMissed(sid) ==> w'.ships == w.ships)
            && (w'.reqs[q] != AssignMissed(sid) ==>
                  w'.reqs[q] == Owes(AssignedEvent(sid)) && w'.ships[sid].driver == Some(driver)
                  && w'.ships[sid].status.Assigned?)
    ensures forall v: World :: Enabled(v, ExplainMiss(q)) ==>
              && Step(v, ExplainMiss(q)) == v.(reqs := v.reqs[q := Step(v, ExplainMiss(q)).reqs[q]])
              && (Step(v, ExplainMiss(q)).reqs[q] == Finished(404) <==> v.reqs[q].sid !in v.ships)
              && (Step(v, ExplainMiss(q)).reqs[q] == Finished(409) <==> v.reqs[q].sid in v.ships)
  {
  }

  /** The status that the update of a request that has read still has to find. */
  predicate StillTimely(phase: Phase, status: Status) {
    match phase
    case DriverRead(_, _, seen, _) => status == seen
    case ShipperRead(_, _, _) => status == Pending
    case AdminRead(_, _, _) => status != Cancelled
    case _ => false
  }

  /** What an update answers in every reachable world: it is made exactly if the shipment's status still permits
      it; otherwise nothing changes, and the answer is 409 for an administrator and 400 for the others. */
  lemma {:induction false} UpdateIsAnswered(acts: seq<Action>, a: Action)
    requires Enabled(Run(EMPTY, acts), a) && (a.UpdateStatus? || a.CancelByShipper? || a.CancelByAdmin?)
    ensures var w := Run(EMPTY, acts);
            var w', p := Step(w, a), w.reqs[a.q];
            && p.sid in w.ships
            && (w'.reqs[a.q].Owes? <==> StillTimely(p, w.ships[p.sid].status))
            && (w'.reqs[a.q] == Finished(if a.CancelByAdmin? then 409 else 400) <==>
                 !StillTimely(p, w.ships[p.sid].status))
            && (!w'.reqs[a.q].Owes? ==> w'.ships == w.ships)
            && w'.events == w.events
  {
    RunInv(acts);
    RunSigned(acts);
    DriversRead(acts);
    var w := Run(EMPTY, acts);
    assert LegalRead(w, w.reqs[a.q]);
    UpdateAnswer(w, a);
  }

  lemma {:induction false} UpdateAnswer(w: World, a: Action)
    requires Enabled(w, a) && (a.UpdateStatus? || a.CancelByShipper? || a.CancelByAdmin?)
    requires w.reqs[a.q].sid in w.ships
    requires a.UpdateStatus? ==> w.ships[w.reqs[a.q].sid].driver == Some(w.reqs[a.q].driver)
    requires a.CancelByShipper? ==> w.ships[w.reqs[a.q].sid].shipper == w.reqs[a.q].shipper
    ensures var w', p := Step(w, a), w.reqs[a.q];
            && (w'.reqs[a.q].Owes? <==> StillTimely(p, w.ships[p.sid].status))
            && (w'.reqs[a.q] == Finished(if a.CancelByAdmin? then 409 else 400) <==>
                 !StillTimely(p, w.ships[p.sid].status))
            && (!w'.reqs[a.q].Owes? ==> w'.ships == w.ships)
            && w'.events == w.events
  {
  }

  ghost predicate DriversHold(w: World) {
    forall q :: q in w.reqs && w.reqs[q].DriverRead? ==>
      w.reqs[q].sid in w.ships && w.ships[w.reqs[q].sid].driver == Some(w.reqs[q].driver)
      && !w.ships[w.reqs[q].sid].status.Pending?
  }

  /** A driver once assigned stays, and its shipment is pending no more. */
  lemma {:induction false} AssignedStays(w: World, a: Action, sid: ShipmentId, driver: UserId)
    requires LegalReads(w) && sid in w.ships && w.ships[sid].driver == Some(driver) && !w.ships[sid].status.Pending?
    ensures sid in Step(w, a).ships && Step(w, a).ships[sid].driver == Some(driver)
    ensures !Step(w, a).ships[sid].status.Pending?
  {
    if a.UpdateStatus? && Enabled(w, a) { assert LegalRead(w, w.reqs[a.q]); }
  }

  lemma {:induction false} NewDriverRead(w: World, a: Action, q: RequestId)
    requires q in Step(w, a).reqs && Step(w, a).reqs[q].DriverRead? && !(q in w.reqs && w.reqs[q] == Step(w, a).reqs[q])
    ensures var p := Step(w, a).reqs[q];
            && Step(w, a).ships == w.ships && p.sid in w.ships
            && w.ships[p.sid].driver == Some(p.driver) && !w.ships[p.sid].status.Pending?
  {
  }

  lemma {:induction false} StepDrivers(w: World, a: Action)
    requires DriversHold(w) && LegalReads(w)
    ensures DriversHold(Step(w, a))
  {
    var w' := Step(w, a);
    forall q | q in w'.reqs && w'.reqs[q].DriverRead?
      ensures w'.reqs[q].sid in w'.ships && w'.ships[w'.reqs[q].sid].driver == Some(w'.reqs[q].driver)
      ensures !w'.ships[w'.reqs[q].sid].status.Pending?
    {
      if q in w.reqs && w.reqs[q] == w'.reqs[q] {
        AssignedStays(w, a, w.reqs[q].sid, w.reqs[q].driver);
      } else {
        NewDriverRead(w, a, q);
      }
    }
  }

  lemma {:induction false} DriversRead(acts: seq<Action>)
    ensures DriversHold(Run(EMPTY, acts))
    decreases |acts|
  {
    if acts == [] {
    } else {
      DriversRead(acts[..|acts| - 1]);
      RunInv(acts[..|acts| - 1]);
      StepDrivers(Run(EMPTY, acts[..|acts| - 1]), acts[|acts| - 1]);
    }
  }

  /** The other answers: 200 exactly for a request whose event has just been recorded, 500 exactly for one that
      died before its update; one that died after it leaves the event unannounced. */
  lemma {:induction false} EndIsAnswered(w: World, q: RequestId)
    ensures Enabled(w, WriteEvent(q)) ==>
              && Step(w, WriteEvent(q)).reqs[q] == Finished(200)
              && Step(w, WriteEvent(q)).events == w.events + [w.reqs[q].ev]
    ensures Enabled(w, Die(q)) ==>
              && Step(w, Die(q)).ships == w.ships && Step(w, Die(q)).events == w.events
              && (Step(w, Die(q)).reqs[q] == Finished(500) <==> !w.reqs[q].Owes?)
              && (Step(w, Die(q)).reqs[q].Dropped? <==> w.reqs[q].Owes?)
  {
  }

  /** In every run, an answer 200 is the answer of a request whose event has been recorded. */
  lemma {:induction false} SuccessMeansRecorded(acts: seq<Action>, q: RequestId) returns (i: nat)
    requires q in Run(EMPTY, acts).reqs && Run(EMPTY, acts).reqs[q] == Finished(200)
    ensures i < |acts| && acts[i] == WriteEvent(q)
    ensures Enabled(Run(EMPTY, acts[..i]), acts[i]) && Run(EMPTY, acts[..i]).reqs[q].ev in Run(EMPTY, acts).events
    decreases |acts|
  {
    var k := |acts| - 1;
    var w := Run(EMPTY, acts[..k]);
    if q in w.reqs && w.reqs[q] == Finished(200) {
      i := SuccessMeansRecorded(acts[..k], q);
      assert acts[..k][..i] == acts[..i];
      RecordsStay(w, acts[k], Run(EMPTY, acts[..i]).reqs[q].ev);
    } else {
      i := k;
      OnlyWritesSucceed(w, acts[k], q);
    }
  }

  lemma {:induction false} RecordsStay(w: World, a: Action, ev: Event)
    requires ev in w.events
    ensures ev in Step(w, a).events
  {
  }

  lemma {:induction false} OnlyWritesSucceed(w: World, a: Action, q: RequestId)
    requires q in Step(w, a).reqs && Step(w, a).reqs[q] == Finished(200)
    requires !(q in w.reqs && w.reqs[q] == Finished(200))
    ensures a == WriteEvent(q) && Enabled(w, a) && w.reqs[q].ev in Step(w, a).events
  {
  }

  // ---------------------------------------------------------------- every answer has its reason

  /** The reason for an answer, in the state in which the request takes this step: 404 no such shipment, 403 somebody
      else's, 400 one in the wrong state, or that has changed since it was read; 409 one that can no longer be
      assigned, or has been cancelled meanwhile; 200 the update is made and its event recorded; 500 the request dies
      before its update. */
  predicate Deserves(w: World, a: Action, code: int)
    requires Enabled(w, a)
  {
    if IsRead(a) then
      || (code == 404 && a.sid !in w.ships)
      || (code == 403 && a.sid in w.ships && !Entitled(a, w.ships[a.sid]))
      || (code == 400 && a.sid in w.ships && Entitled(a, w.ships[a.sid]) && !Timely(a, w.ships[a.sid].status))
    else
      match a
      case ExplainMiss(q) => code == if w.reqs[q].sid in w.ships then 409 else 404
      case UpdateStatus(q) => code == 400 && HasChanged(w, q)
      case CancelByShipper(q) => code == 400 && HasChanged(w, q)
      case CancelByAdmin(q) => code == 409 && HasChanged(w, q)
      case WriteEvent(_) => code == 200
      case Die(q) => code == 500 && !w.reqs[q].Owes?
      case _ => false
  }

  predicate HasChanged(w: World, q: RequestId)
    requires q in w.reqs && (w.reqs[q].DriverRead? || w.reqs[q].ShipperRead? || w.reqs[q].AdminRead?)
  {
    w.reqs[q].sid in w.ships && !StillTimely(w.reqs[q], w.ships[w.reqs[q].sid].status)
  }

  ghost predicate ReasonAt(acts: seq<Action>, i: int, q: RequestId, code: int) {
    && 0 <= i < |acts| && acts[i].q == q && Enabled(Run(EMPTY, acts[..i]), acts[i])
    && Deserves(Run(EMPTY, acts[..i]), acts[i], code)
  }

  predicate IsAnswered(w: World, q: RequestId, code: int) {
    q in w.reqs && w.reqs[q] == Finished(code)
  }

  lemma {:induction false} OthersAnswer(w: World, a: Action, code: int)
    requires Enabled(w, a) && !IsRead(a) && !a.UpdateStatus? && !a.CancelByShipper? && !a.CancelByAdmin?
    ensures IsAnswered(Step(w, a), a.q, code) <==> Deserves(w, a, code)
  {
  }

  lemma {:induction false} StepAnswers(acts: seq<Action>, a: Action, code: int)
    requires Enabled(Run(EMPTY, acts), a)
    ensures var w := Run(EMPTY, acts); IsAnswered(Step(w, a), a.q, code) <==> Deserves(w, a, code)
  {
    var w := Run(EMPTY, acts);
    if IsRead(a) {
      ReadIsAnswered(w, a);
    } else if a.UpdateStatus? || a.CancelByShipper? || a.CancelByAdmin? {
      UpdateIsAnswered(acts, a);
    } else {
      OthersAnswer(w, a, code);
    }
  }

  lemma {:induction false} OnlyOwnStepsAnswer(w: World, a: Action, q: RequestId, code: int)
    requires !Enabled(w, a) || a.q != q
    ensures IsAnswered(Step(w, a), q, code) <==> IsAnswered(w, q, code)
  {
  }

  lemma {:induction false} AnsweredIsOver(w: World, a: Action, code: int)
    requires Enabled(w, a)
    ensures !IsAnswered(w, a.q, code)
  {
  }

  /** In every run a request is answered with a code if and only if the reason for that code held when the request
      took one of its steps. */
  lemma {:induction false} AnswersHaveReasons(acts: seq<Action>, q: RequestId, code: int)
    ensures IsAnswered(Run(EMPTY, acts), q, code) <==> exists i :: ReasonAt(acts, i, q, code)
    decreases |acts|
  {
    if acts == [] {
    } else {
      var k := |acts| - 1;
      var front, a := acts[..k], acts[k];
      var w := Run(EMPTY, front);
      AnswersHaveReasons(front, q, code);
      ReasonsSplit(acts, q, code);
      if Enabled(w, a) && a.q == q {
        StepAnswers(front, a, code);
        AnsweredIsOver(w, a, code);
      } else {
        OnlyOwnStepsAnswer(w, a, q, code);
      }
    }
  }

  lemma {:induction false} ReasonsSplit(acts: seq<Action>, q: RequestId, code: int)
    requires acts != []
    ensures var k := |acts| - 1;
            (exists i :: ReasonAt(acts, i, q, code)) <==>
            (exists i :: ReasonAt(acts[..k], i, q, code)) || ReasonAt(acts, k, q, code)
  {
    var k := |acts| - 1;
    forall i | 0 <= i < k ensures ReasonAt(acts[..k], i, q, code) <==> ReasonAt(acts, i, q, code) {
      assert acts[..k][..i] == acts[..i] && acts[..k][i] == acts[i];
    }
    if i :| ReasonAt(acts[..k], i, q, code) { assert ReasonAt(acts, i, q, code); }
  }
}
