/** Histories and events of every run of the shipment controllers. */
module LifecycleProofs {
  import opened Options
  import opened ShipmentEvents
  import opened Lifecycle

  // ---------------------------------------------------------------- histories

  const PATH: seq<Status> := [Pending, Assigned, PickedUp, InTransit, Delivered]

  function Statuses(history: seq<Entry>): (ss: seq<Status>)
    ensures |ss| == |history|
    ensures forall i :: 0 <= i < |ss| ==> ss[i] == history[i].status
  {
    seq(|history|, i requires 0 <= i < |history| => history[i].status)
  }

  /** A non-empty prefix of the delivery path, optionally followed by one cancellation. */
  predicate LegalPath(ss: seq<Status>) {
    var k := if ss != [] && ss[|ss| - 1].Cancelled? then |ss| - 1 else |ss|;
    1 <= k <= |PATH| && ss[..k] == PATH[..k]
  }

  predicate DriverMade(status: Status) {
    status.PickedUp? || status.InTransit? || status.Delivered?
  }

  predicate LegalShipment(sh: Shipment) {
    && LegalPath(Statuses(sh.history))
    && sh.status == sh.history[|sh.history| - 1].status
    && (sh.driver.None? <==> Assigned !in Statuses(sh.history))
    && sh.history[0].author == sh.shipper
    && (forall i :: 0 <= i < |sh.history| && DriverMade(sh.history[i].status) ==>
         sh.driver == Some(sh.history[i].author))
  }

  ghost predicate LegalShips(w: World) {
    forall sid :: sid in w.ships ==> LegalShipment(w.ships[sid])
  }

  /** What a waiting request has read is a status that the shipment did have. */
  predicate LegalRead(w: World, phase: Phase) {
    match phase
    case DriverRead(sid, driver, seen, want) => sid in w.ships && Progression(seen) == Some(want)
    case ShipperRead(sid, shipper, seen) => sid in w.ships && seen == Pending
    case AdminRead(sid, _, seen) => sid in w.ships && seen != Cancelled && seen in Statuses(w.ships[sid].history)
    case _ => true
  }

  ghost predicate LegalReads(w: World) {
    forall q :: q in w.reqs ==> LegalRead(w, w.reqs[q])
  }

  /** A shipment only ever gains entries; its shipper is fixed, its driver is written once. */
  predicate Grows(sh: Shipment, sh': Shipment) {
    && sh'.shipper == sh.shipper
    && sh.history <= sh'.history
    && (sh.driver.Some? ==> sh'.driver == sh.driver)
  }

  ghost predicate WorldGrows(w: World, w': World) {
    && (forall sid :: sid in w.ships ==> sid in w'.ships && Grows(w.ships[sid], w'.ships[sid]))
    && w.events <= w'.events
  }

  /** What may follow a legal path of statuses. */
  predicate MayFollow(last: Status, next: Status) {
    !last.Cancelled? && (next.Cancelled? || (last.Pending? && next.Assigned?) || Progression(last) == Some(next))
  }

  lemma ExtendPath(ss: seq<Status>, next: Status)
    requires LegalPath(ss) && MayFollow(ss[|ss| - 1], next)
    ensures LegalPath(ss + [next])
  {
    var k := |ss|;
    assert ss == PATH[..k];
    assert (ss + [next])[..k] == ss;
    if !next.Cancelled? {
      assert PATH[k - 1] == ss[k - 1] && PATH[k] == next;
      assert PATH[..k + 1] == ss + [next];
    }
  }

  lemma PushStatuses(sh: Shipment, status: Status, author: UserId)
    ensures Statuses(Push(sh, status, author).history) == Statuses(sh.history) + [status]
  {
  }

  lemma PushLegal(sh: Shipment, status: Status, author: UserId)
    requires LegalShipment(sh) && MayFollow(sh.status, status) && !status.Assigned?
    requires DriverMade(status) ==> sh.driver == Some(author)
    ensures LegalShipment(Push(sh, status, author)) && Grows(sh, Push(sh, status, author))
  {
    PushStatuses(sh, status, author);
    ExtendPath(Statuses(sh.history), status);
    assert Assigned in Statuses(sh.history) + [status] <==> Assigned in Statuses(sh.history);
  }

  lemma AssignLegal(sh: Shipment, driver: UserId, admin: UserId)
    requires LegalShipment(sh) && sh.status.Pending?
    ensures var sh' := Push(sh.(driver := Some(driver)), Assigned, admin);
            LegalShipment(sh') && Grows(sh, sh')
  {
    var ss := Statuses(sh.history);
    PushStatuses(sh.(driver := Some(driver)), Assigned, admin);
    ExtendPath(ss, Assigned);
    assert (ss + [Assigned])[|ss|] == Assigned;
    PendingAlone(ss);
  }

  lemma PendingAlone(ss: seq<Status>)
    requires LegalPath(ss) && ss[|ss| - 1].Pending?
    ensures ss == [Pending]
  {
    assert ss == PATH[..|ss|];
    assert PATH[|ss| - 1] == Pending;
  }

  /** The only way a shipment changes is one committed update that keeps it legal. */
  lemma CommitLegal(w: World, q: RequestId, sid: ShipmentId, sh: Shipment, ev: Event)
    requires LegalShips(w) && LegalShipment(sh) && (sid in w.ships ==> Grows(w.ships[sid], sh))
    ensures LegalShips(Commit(w, q, sid, sh, ev)) && WorldGrows(w, Commit(w, q, sid, sh, ev))
  {
  }

  lemma CreateLegal(shipper: UserId)
    ensures LegalShipment(Shipment(shipper, None, Pending, [Entry(Pending, shipper)]))
  {
    assert Statuses([Entry(Pending, shipper)]) == [Pending];
    assert PATH[..1] == [Pending];
  }

  /** The five operations that may change a shipment. */
  predicate Updates(a: Action) {
    a.Create? || a.AssignDriver? || a.UpdateStatus? || a.CancelByShipper? || a.CancelByAdmin?
  }

  lemma OthersLeaveShips(w: World, a: Action)
    requires !Updates(a)
    ensures Step(w, a).ships == w.ships && w.events <= Step(w, a).events
  {
  }

  lemma StepShips(w: World, a: Action)
    requires LegalShips(w) && LegalReads(w)
    ensures LegalShips(Step(w, a)) && WorldGrows(w, Step(w, a))
  {
    if !Updates(a) {
      OthersLeaveShips(w, a);
    } else if a.Create? {
      CreateShips(w, a);
    } else if a.AssignDriver? {
      AssignShips(w, a);
    } else if a.UpdateStatus? {
      StatusShips(w, a.q);
    } else {
      CancelShips(w, a);
    }
  }

  lemma CreateShips(w: World, a: Action)
    requires LegalShips(w) && a.Create?
    ensures LegalShips(Step(w, a)) && WorldGrows(w, Step(w, a))
  {
    CreateLegal(a.shipper);
    if Enabled(w, a) { CommitLegal(w, a.q, a.sid, Step(w, a).ships[a.sid], CreatedEvent(a.sid)); }
  }

  lemma AssignShips(w: World, a: Action)
    requires LegalShips(w) && a.AssignDriver?
    ensures LegalShips(Step(w, a)) && WorldGrows(w, Step(w, a))
  {
    if Enabled(w, a) && a.sid in w.ships && w.ships[a.sid].status.Pending? {
      AssignLegal(w.ships[a.sid], a.driver, a.admin);
      CommitLegal(w, a.q, a.sid, Step(w, a).ships[a.sid], AssignedEvent(a.sid));
    }
  }

  lemma StatusShips(w: World, q: RequestId)
    requires LegalShips(w) && LegalReads(w)
    ensures LegalShips(Step(w, UpdateStatus(q))) && WorldGrows(w, Step(w, UpdateStatus(q)))
  {
    if Enabled(w, UpdateStatus(q)) && Step(w, UpdateStatus(q)).reqs[q].Owes? {
      StatusGrows(w, w.reqs[q]);
      var p := w.reqs[q];
      CommitLegal(w, q, p.sid, Push(w.ships[p.sid], p.want, p.driver), StatusEvent(p.sid, p.seen, p.want));
    }
  }

  lemma StatusGrows(w: World, p: Phase)
    requires LegalShips(w) && p.DriverRead? && LegalRead(w, p)
    requires w.ships[p.sid].driver == Some(p.driver) && w.ships[p.sid].status == p.seen
    ensures LegalShipment(Push(w.ships[p.sid], p.want, p.driver))
              && Grows(w.ships[p.sid], Push(w.ships[p.sid], p.want, p.driver))
  {
    PushLegal(w.ships[p.sid], p.want, p.driver);
  }

  lemma CancelShips(w: World, a: Action)
    requires LegalShips(w) && (a.CancelByShipper? || a.CancelByAdmin?)
    ensures LegalShips(Step(w, a)) && WorldGrows(w, Step(w, a))
  {
    if Enabled(w, a) && Step(w, a).reqs[a.q].Owes? {
      var p := w.reqs[a.q];
      var author := if a.CancelByShipper? then p.shipper else p.admin;
      PushLegal(w.ships[p.sid], Cancelled, author);
      CommitLegal(w, a.q, p.sid, Push(w.ships[p.sid], Cancelled, author), Step(w, a).reqs[a.q].ev);
    }
  }

  lemma StepReads(w: World, a: Action)
    requires LegalShips(w) && LegalReads(w) && WorldGrows(w, Step(w, a))
    ensures LegalReads(Step(w, a))
  {
    var w' := Step(w, a);
    forall q | q in w'.reqs ensures LegalRead(w', w'.reqs[q]) {
      if q in w.reqs && w'.reqs[q] == w.reqs[q] {
        ReadStays(w, w', w.reqs[q]);
      } else if q in w'.reqs {
        NewRead(w, a, q);
      }
    }
  }

  lemma NewRead(w: World, a: Action, q: RequestId)
    requires LegalShips(w) && Enabled(w, a) && q in Step(w, a).reqs && !(q in w.reqs && Step(w, a).reqs[q] == w.reqs[q])
    ensures LegalRead(Step(w, a), Step(w, a).reqs[q])
  {
    if a.ReadForStatus? || a.ReadForCancel? || a.ReadForAdminCancel? {
      DecisionsLegal(w, a);
    } else {
      assert q == a.q;
    }
  }

  lemma DecisionsLegal(w: World, a: Action)
    requires LegalShips(w)
    ensures a.ReadForStatus? ==> LegalRead(w, DecideStatus(w, a.sid, a.driver, a.want))
    ensures a.ReadForCancel? ==> LegalRead(w, DecideCancel(w, a.sid, a.shipper))
    ensures a.ReadForAdminCancel? ==> LegalRead(w, DecideAdminCancel(w, a.sid, a.admin))
  {
    if a.ReadForAdminCancel? && a.sid in w.ships {
      assert LegalShipment(w.ships[a.sid]);
      StatusIsInHistory(w.ships[a.sid]);
    }
  }

  lemma StatusIsInHistory(sh: Shipment)
    requires |sh.history| > 0 && sh.status == sh.history[|sh.history| - 1].status
    ensures sh.status in Statuses(sh.history)
  {
    assert Statuses(sh.history)[|sh.history| - 1] == sh.status;
  }

  lemma ReadStays(w: World, w': World, phase: Phase)
    requires LegalRead(w, phase) && WorldGrows(w, w')
    ensures LegalRead(w', phase)
  {
    if phase.AdminRead? {
      var h, h' := w.ships[phase.sid].history, w'.ships[phase.sid].history;
      assert Grows(w.ships[phase.sid], w'.ships[phase.sid]);
      var i :| 0 <= i < |h| && Statuses(h)[i] == phase.seen;
      assert Statuses(h')[i] == phase.seen;
    }
  }

  // ---------------------------------------------------------------- events

  /** Entry `i` of the history is the one `ev` announces, and the status it reports as previous is
      the entry just before; an administrator's cancellation may report an older one. */
  predicate FitsAt(ss: seq<Status>, ev: Event, i: nat) {
    && i < |ss| && ss[i] == ev.next
    && match ev.previous
       case None => i == 0
       case Some(p) => i > 0 && p != Cancelled && if ev.cancelledBy == Some(Admin) then p in ss[..i] else ss[i - 1] == p
  }

  ghost predicate Fits(w: World, ev: Event) {
    && ev.shipment in w.ships
    && exists i: nat :: FitsAt(Statuses(w.ships[ev.shipment].history), ev, i)
  }

  function Key(ev: Event): (ShipmentId, Status) {
    (ev.shipment, ev.next)
  }

  /** The request updated its shipment but has not announced it, or never will. */
  predicate Silent(phase: Phase) {
    phase.Owes? || phase.Dropped?
  }

  ghost predicate Accounted(w: World, key: (ShipmentId, Status)) {
    || (exists i :: 0 <= i < |w.events| && Key(w.events[i]) == key)
    || (exists q :: q in w.reqs && Silent(w.reqs[q]) && Key(w.reqs[q].ev) == key)
  }

  ghost predicate EventsFit(w: World) {
    && (forall i :: 0 <= i < |w.events| ==> Fits(w, w.events[i]))
    && (forall q :: q in w.reqs && Silent(w.reqs[q]) ==> Fits(w, w.reqs[q].ev))
  }

  ghost predicate EventsUnique(w: World) {
    && (forall i, j :: 0 <= i < j < |w.events| ==> Key(w.events[i]) != Key(w.events[j]))
    && (forall q, r :: q in w.reqs && r in w.reqs && q != r && Silent(w.reqs[q]) && Silent(w.reqs[r]) ==>
          Key(w.reqs[q].ev) != Key(w.reqs[r].ev))
    && (forall i, q :: 0 <= i < |w.events| && q in w.reqs && Silent(w.reqs[q]) ==>
         Key(w.events[i]) != Key(w.reqs[q].ev))
  }

  ghost predicate EntriesAccounted(w: World) {
    forall sid, i :: sid in w.ships && 0 <= i < |w.ships[sid].history| ==>
        Accounted(w, (sid, w.ships[sid].history[i].status))
  }

  lemma FitsStays(w: World, w': World, ev: Event)
    requires Fits(w, ev) && WorldGrows(w, w')
    ensures Fits(w', ev)
  {
    var ss, ss' := Statuses(w.ships[ev.shipment].history), Statuses(w'.ships[ev.shipment].history);
    assert Grows(w.ships[ev.shipment], w'.ships[ev.shipment]);
    var i: nat :| FitsAt(ss, ev, i);
    assert ss'[..i] == ss[..i];
    assert FitsAt(ss', ev, i);
  }

  /** The shape of every committed update: one new entry, announced by a fitting event. */
  ghost predicate Announced(w: World, w': World, q: RequestId, ev: Event) {
    && w'.events == w.events && w'.reqs == w.reqs[q := Owes(ev)]
    && (q in w.reqs ==> !Silent(w.reqs[q]))
    && ev.shipment in w'.ships && w'.ships == w.ships[ev.shipment := w'.ships[ev.shipment]]
    && (var before := if ev.shipment in w.ships then Statuses(w.ships[ev.shipment].history) else [];
        Statuses(w'.ships[ev.shipment].history) == before + [ev.next] && ev.next !in before)
    && Fits(w', ev)
  }

  lemma AnnouncedFits(w: World, w': World, q: RequestId, ev: Event)
    requires Announced(w, w', q, ev) && WorldGrows(w, w') && EventsFit(w)
    ensures EventsFit(w')
  {
    forall i | 0 <= i < |w'.events| ensures Fits(w', w'.events[i]) {
      FitsStays(w, w', w.events[i]);
    }
    forall r | r in w'.reqs && Silent(w'.reqs[r]) ensures Fits(w', w'.reqs[r].ev) {
      if r != q { FitsStays(w, w', w.reqs[r].ev); }
    }
  }

  lemma AnnouncedUnique(w: World, w': World, q: RequestId, ev: Event)
    requires Announced(w, w', q, ev) && EventsFit(w) && EventsUnique(w)
    ensures EventsUnique(w')
  {
    forall i | 0 <= i < |w.events| ensures Key(w.events[i]) != Key(ev) {
      FreshKey(w, w', q, ev, w.events[i]);
    }
    forall r | r in w.reqs && Silent(w.reqs[r]) ensures Key(w.reqs[r].ev) != Key(ev) {
      FreshKey(w, w', q, ev, w.reqs[r].ev);
    }
  }

  lemma FreshKey(w: World, w': World, q: RequestId, ev: Event, older: Event)
    requires Announced(w, w', q, ev) && Fits(w, older)
    ensures Key(older) != Key(ev)
  {
    var i: nat :| FitsAt(Statuses(w.ships[older.shipment].history), older, i);
  }

  lemma AnnouncedAccounted(w: World, w': World, q: RequestId, ev: Event)
    requires Announced(w, w', q, ev) && EntriesAccounted(w)
    ensures EntriesAccounted(w')
  {
    forall sid, i | sid in w'.ships && 0 <= i < |w'.ships[sid].history|
      ensures Accounted(w', (sid, w'.ships[sid].history[i].status))
    {
      var key := (sid, w'.ships[sid].history[i].status);
      var before := if sid in w.ships then Statuses(w.ships[sid].history) else [];
      assert sid == ev.shipment ==> Statuses(w'.ships[sid].history)[i] == (before + [ev.next])[i];
      if sid == ev.shipment && i == |before| {
        assert q in w'.reqs && Key(w'.reqs[q].ev) == key;
      } else {
        assert key.1 == w.ships[sid].history[i].status;
        AccountedStays(w, w', q, key);
      }
    }
  }

  /** Silent requests other than `q` stay silent, and recorded events stay recorded. */
  lemma AccountedStays(w: World, w': World, q: RequestId, key: (ShipmentId, Status))
    requires Accounted(w, key) && w.events <= w'.events
    requires forall r :: r in w.reqs && r != q ==> r in w'.reqs && w'.reqs[r] == w.reqs[r]
    requires q in w.reqs && Silent(w.reqs[q]) ==> Accounted(w', Key(w.reqs[q].ev))
    ensures Accounted(w', key)
  {
    if i :| 0 <= i < |w.events| && Key(w.events[i]) == key {
      assert Key(w'.events[i]) == key;
    } else {
      var r :| r in w.reqs && Silent(w.reqs[r]) && Key(w.reqs[r].ev) == key;
      if r != q { assert r in w'.reqs && Silent(w'.reqs[r]); }
    }
  }

  ghost predicate Inv(w: World) {
    LegalShips(w) && LegalReads(w) && EventsInv(w)
  }

  ghost predicate EventsInv(w: World) {
    EventsFit(w) && EventsUnique(w) && EntriesAccounted(w)
  }

  lemma AnnouncedInv(w: World, w': World, q: RequestId, ev: Event)
    requires Announced(w, w', q, ev) && WorldGrows(w, w') && EventsInv(w)
    ensures EventsInv(w')
  {
    AnnouncedFits(w, w', q, ev);
    AnnouncedUnique(w, w', q, ev);
    AnnouncedAccounted(w, w', q, ev);
  }

  lemma NextIsNew(ss: seq<Status>, next: Status)
    requires LegalPath(ss) && MayFollow(ss[|ss| - 1], next)
    ensures next !in ss
  {
    assert ss == PATH[..|ss|];
    assert PATH[|ss| - 1] == ss[|ss| - 1];
    forall i | 0 <= i < |ss| ensures ss[i] != next {
      assert ss[i] == PATH[i];
    }
  }

  /** An update that pushes one entry is announced by a fitting event. */
  lemma PushAnnounced(w: World, q: RequestId, sid: ShipmentId, sh: Shipment, ev: Event)
    requires sid in w.ships && LegalShipment(w.ships[sid]) && (q in w.reqs ==> !Silent(w.reqs[q])) && ev.shipment == sid
    requires Statuses(sh.history) == Statuses(w.ships[sid].history) + [ev.next]
               && MayFollow(w.ships[sid].status, ev.next)
    requires ev.previous.Some? && ev.previous != Some(Cancelled)
    requires if ev.cancelledBy == Some(Admin) then ev.previous.value in Statuses(w.ships[sid].history)
               else ev.previous.value == w.ships[sid].status
    ensures Announced(w, Commit(w, q, sid, sh, ev), q, ev)
  {
    var ss, ss' := Statuses(w.ships[sid].history), Statuses(sh.history);
    NextIsNew(ss, ev.next);
    assert ss'[..|ss|] == ss;
    assert FitsAt(ss', ev, |ss|);
    assert Fits(Commit(w, q, sid, sh, ev), ev);
  }

  lemma CreateAnnounced(w: World, a: Action)
    requires Enabled(w, a) && a.Create?
    ensures Announced(w, Step(w, a), a.q, CreatedEvent(a.sid))
  {
    var w' := Step(w, a);
    var ss := Statuses(w'.ships[a.sid].history);
    assert ss == [Pending];
    assert FitsAt(ss, CreatedEvent(a.sid), 0);
  }

  lemma AssignAnnounced(w: World, a: Action)
    requires LegalShips(w) && Enabled(w, a) && a.AssignDriver? && a.sid in w.ships && w.ships[a.sid].status.Pending?
    ensures Announced(w, Step(w, a), a.q, AssignedEvent(a.sid))
  {
    PushStatuses(w.ships[a.sid].(driver := Some(a.driver)), Assigned, a.admin);
    PushAnnounced(w, a.q, a.sid, Step(w, a).ships[a.sid], AssignedEvent(a.sid));
  }

  lemma StatusAnnounced(w: World, q: RequestId, p: Phase)
    requires LegalShips(w) && p.DriverRead? && LegalRead(w, p) && q in w.reqs && w.reqs[q] == p
    requires w.ships[p.sid].status == p.seen
    ensures Announced(w, Commit(w, q, p.sid, Push(w.ships[p.sid], p.want, p.driver),
              StatusEvent(p.sid, p.seen, p.want)),
                      q, StatusEvent(p.sid, p.seen, p.want))
  {
    PushStatuses(w.ships[p.sid], p.want, p.driver);
    PushAnnounced(w, q, p.sid, Push(w.ships[p.sid], p.want, p.driver), StatusEvent(p.sid, p.seen, p.want));
  }

  lemma CancelAnnounced(w: World, q: RequestId, p: Phase, author: UserId, actor: Actor)
    requires LegalShips(w) && (if actor.Admin? then p.AdminRead? else p.ShipperRead?) && LegalRead(w, p)
    requires q in w.reqs && w.reqs[q] == p
    requires if actor.Admin? then !w.ships[p.sid].status.Cancelled? else w.ships[p.sid].status.Pending?
    ensures Announced(w, Commit(w, q, p.sid, Push(w.ships[p.sid], Cancelled, author),
              CancelledEvent(p.sid, p.seen, actor)),
                      q, CancelledEvent(p.sid, p.seen, actor))
  {
    PushStatuses(w.ships[p.sid], Cancelled, author);
    PushAnnounced(w, q, p.sid, Push(w.ships[p.sid], Cancelled, author), CancelledEvent(p.sid, p.seen, actor));
  }

  /** The request's update matched a document. */
  predicate Matched(w: World, a: Action) {
    Enabled(w, a) && Updates(a) && Step(w, a).reqs[a.q].Owes?
  }

  /** Every matched update is announced: the request owes that event. */
  lemma UpdateAnnounced(w: World, a: Action)
    requires LegalShips(w) && LegalReads(w) && Matched(w, a)
    ensures Announced(w, Step(w, a), a.q, Step(w, a).reqs[a.q].ev)
  {
    if a.Create? {
      CreateAnnounced(w, a);
    } else if a.AssignDriver? {
      AssignAnnounced(w, a);
    } else {
      var p := w.reqs[a.q];
      assert LegalRead(w, p);
      if a.UpdateStatus? {
        StatusAnnounced(w, a.q, p);
      } else if a.CancelByShipper? {
        CancelAnnounced(w, a.q, p, p.shipper, Shipper);
      } else {
        CancelAnnounced(w, a.q, p, p.admin, Admin);
      }
    }
  }

  /** Writing or dropping an owed event moves it out of the request that owes it, and nothing else. */
  lemma QuietEvents(w: World, a: Action)
    requires EventsInv(w) && Enabled(w, a) && a.q in w.reqs && Silent(w.reqs[a.q])
    ensures EventsInv(Step(w, a))
  {
    if a.WriteEvent? { WriteMoves(w, a.q); } else { DropMoves(w, a.q); }
  }

  lemma WriteMoves(w: World, q: RequestId)
    requires EventsInv(w) && Enabled(w, WriteEvent(q))
    ensures EventsInv(Step(w, WriteEvent(q)))
  {
    var w', ev := Step(w, WriteEvent(q)), w.reqs[q].ev;
    SameShipsFit(w, w');
    WriteUnique(w, w', q);
    assert w'.events[|w.events|] == ev;
    forall sid, i | sid in w'.ships && 0 <= i < |w'.ships[sid].history|
      ensures Accounted(w', (sid, w'.ships[sid].history[i].status))
    {
      AccountedStays(w, w', q, (sid, w'.ships[sid].history[i].status));
    }
  }

  lemma WriteUnique(w: World, w': World, q: RequestId)
    requires EventsUnique(w) && q in w.reqs && w.reqs[q].Owes?
    requires w'.events == w.events + [w.reqs[q].ev] && w'.reqs == w.reqs[q := Finished(200)]
    ensures EventsUnique(w')
  {
  }

  lemma DropMoves(w: World, q: RequestId)
    requires EventsInv(w) && q in w.reqs && w.reqs[q].Owes?
    ensures EventsInv(Answer(w, q, Dropped(w.reqs[q].ev)))
  {
    var w' := Answer(w, q, Dropped(w.reqs[q].ev));
    SameShipsFit(w, w');
    assert q in w'.reqs && Silent(w'.reqs[q]);
    forall sid, i | sid in w'.ships && 0 <= i < |w'.ships[sid].history|
      ensures Accounted(w', (sid, w'.ships[sid].history[i].status))
    {
      AccountedStays(w, w', q, (sid, w'.ships[sid].history[i].status));
    }
  }

  lemma SameShipsFit(w: World, w': World)
    requires w'.ships == w.ships
    ensures forall ev :: Fits(w, ev) ==> Fits(w', ev)
  {
  }

  lemma OtherEvents(w: World, w': World, q: RequestId)
    requires EventsInv(w) && WorldGrows(w, w') && w'.ships == w.ships && w'.events == w.events
    requires q in w'.reqs && w'.reqs == w.reqs[q := w'.reqs[q]] && !Silent(w'.reqs[q])
    requires q in w.reqs ==> !Silent(w.reqs[q])
    ensures EventsInv(w')
  {
    forall i | 0 <= i < |w'.events| ensures Fits(w', w'.events[i]) {
      FitsStays(w, w', w.events[i]);
    }
    forall r | r in w'.reqs && Silent(w'.reqs[r]) ensures Fits(w', w'.reqs[r].ev) {
      FitsStays(w, w', w'.reqs[r].ev);
    }
    forall sid, i | sid in w'.ships && 0 <= i < |w'.ships[sid].history|
      ensures Accounted(w', (sid, w'.ships[sid].history[i].status))
    {
      AccountedStays(w, w', q, (sid, w'.ships[sid].history[i].status));
    }
  }

  lemma StepEvents(w: World, a: Action)
    requires LegalShips(w) && LegalReads(w) && EventsInv(w) && WorldGrows(w, Step(w, a))
    ensures EventsInv(Step(w, a))
  {
    var w' := Step(w, a);
    if Matched(w, a) {
      UpdateAnnounced(w, a);
      AnnouncedInv(w, w', a.q, w'.reqs[a.q].ev);
    } else if Enabled(w, a) {
      if a.q in w.reqs && Silent(w.reqs[a.q]) {
        QuietEvents(w, a);
      } else {
        UnmatchedIsQuiet(w, a);
        OtherEvents(w, w', a.q);
      }
    }
  }

  /** An update that matches nothing, or a read, changes only the request's own phase. */
  lemma UnmatchedIsQuiet(w: World, a: Action)
    requires Enabled(w, a) && !Matched(w, a) && !(a.q in w.reqs && Silent(w.reqs[a.q]))
    ensures Step(w, a).ships == w.ships && Step(w, a).events == w.events
    ensures a.q in Step(w, a).reqs && !Silent(Step(w, a).reqs[a.q])
    ensures Step(w, a).reqs == w.reqs[a.q := Step(w, a).reqs[a.q]]
  {
  }

  lemma StepInv(w: World, a: Action)
    requires Inv(w)
    ensures Inv(Step(w, a)) && WorldGrows(w, Step(w, a))
  {
    StepShips(w, a);
    StepReads(w, a);
    StepEvents(w, a);
  }

  lemma {:induction false} RunInv(acts: seq<Action>)
    ensures Inv(Run(EMPTY, acts))
    decreases |acts|
  {
    if acts == [] {
    } else {
      RunInv(acts[..|acts| - 1]);
      StepInv(Run(EMPTY, acts[..|acts| - 1]), acts[|acts| - 1]);
    }
  }

  lemma ReachableInv(w: World)
    requires Reachable(w)
    ensures Inv(w)
  {
    var acts: seq<Action> :| w == Run(EMPTY, acts);
    RunInv(acts);
  }
}
