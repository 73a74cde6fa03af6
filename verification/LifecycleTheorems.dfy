/** The promises of the shipment controllers, over every interleaving of any number of requests. */
module LifecycleTheorems {
  import opened Options
  import opened ShipmentEvents
  import opened Lifecycle
  import opened LifecycleProofs

  // ---------------------------------------------------------------- histories

  /** Every reachable shipment: a legal history whose last entry is the status, no driver exactly
      while `assigned` is absent, and the driver's signature on every driver-made entry. */
  lemma HistoriesAreLegal(w: World, sid: ShipmentId)
    requires Reachable(w) && sid in w.ships
    ensures LegalShipment(w.ships[sid])
  {
    ReachableInv(w);
  }

  /** Nothing is ever rewritten: later in the run the shipper is the same, a driver once set is the
      same, and the history and the recorded events have only been appended to. */
  lemma {:induction false} NothingIsRewritten(acts: seq<Action>, more: seq<Action>)
    ensures WorldGrows(Run(EMPTY, acts), Run(EMPTY, acts + more))
    decreases |more|
  {
    if more == [] {
      assert acts + more == acts;
    } else {
      var front, last := more[..|more| - 1], more[|more| - 1];
      NothingIsRewritten(acts, front);
      assert acts + more == acts + front + [last];
      RunOne(EMPTY, acts + front, last);
      NextGrows(acts + front, last);
      GrowsOn(Run(EMPTY, acts), Run(EMPTY, acts + front), Run(EMPTY, acts + more));
    }
  }

  lemma NextGrows(acts: seq<Action>, a: Action)
    ensures WorldGrows(Run(EMPTY, acts), Step(Run(EMPTY, acts), a))
  {
    RunInv(acts);
    StepInv(Run(EMPTY, acts), a);
  }

  lemma GrowsOn(w0: World, w1: World, w2: World)
    requires WorldGrows(w0, w1) && WorldGrows(w1, w2)
    ensures WorldGrows(w0, w2)
  {
    forall sid | sid in w0.ships ensures sid in w2.ships && Grows(w0.ships[sid], w2.ships[sid]) {
      assert Grows(w0.ships[sid], w1.ships[sid]) && Grows(w1.ships[sid], w2.ships[sid]);
    }
  }

  lemma RunOne(w: World, acts: seq<Action>, a: Action)
    ensures Run(w, acts + [a]) == Step(Run(w, acts), a)
  {
    assert (acts + [a])[..|acts|] == acts;
  }

  lemma ReachableNext(w: World, a: Action)
    requires Reachable(w)
    ensures Reachable(Step(w, a))
  {
    var acts: seq<Action> :| w == Run(EMPTY, acts);
    RunOne(EMPTY, acts, a);
    assert Step(w, a) == Run(EMPTY, acts + [a]);
  }

  /** Shipment "s" is driven by "d" as soon as it is assigned, and no request is numbered `k` or more. */
  predicate OnPath(w: World, k: nat) {
    && 1 <= k <= |PATH| && "s" in w.ships
    && Statuses(w.ships["s"].history) == PATH[..k] && w.ships["s"].status == PATH[k - 1]
    && (k >= 2 ==> w.ships["s"].driver == Some("d"))
    && (forall q :: q in w.reqs ==> q < k)
  }

  lemma AssignOnPath(w: World)
    requires OnPath(w, 1)
    ensures OnPath(Step(w, AssignDriver(1, "s", "d", "a")), 2)
  {
    assert PATH[..2] == PATH[..1] + [Assigned];
    PushStatuses(w.ships["s"].(driver := Some("d")), Assigned, "a");
  }

  lemma AdvanceOnPath(w: World, k: nat)
    requires 2 <= k < |PATH| && OnPath(w, k)
    ensures OnPath(Step(Step(w, ReadForStatus(k, "s", "d", PATH[k])), UpdateStatus(k)), k + 1)
  {
    var w1 := Step(w, ReadForStatus(k, "s", "d", PATH[k]));
    assert w1.reqs[k] == DriverRead("s", "d", PATH[k - 1], PATH[k]);
    PushStatuses(w.ships["s"], PATH[k], "d");
    assert PATH[..k + 1] == PATH[..k] + [PATH[k]];
  }

  /** The first `k` statuses of the delivery path happen. */
  lemma DeliverUpTo(k: nat) returns (w: World)
    requires 1 <= k <= |PATH|
    ensures Reachable(w) && OnPath(w, k)
  {
    if k == 1 {
      assert EMPTY == Run(EMPTY, []);
      ReachableNext(EMPTY, Create(0, "s", "u"));
      w := Step(EMPTY, Create(0, "s", "u"));
      assert PATH[..1] == [Pending];
    } else {
      var before := DeliverUpTo(k - 1);
      if k == 2 {
        AssignOnPath(before);
        ReachableNext(before, AssignDriver(1, "s", "d", "a"));
        w := Step(before, AssignDriver(1, "s", "d", "a"));
      } else {
        AdvanceOnPath(before, k - 1);
        var read := ReadForStatus(k - 1, "s", "d", PATH[k - 1]);
        ReachableNext(before, read);
        ReachableNext(Step(before, read), UpdateStatus(k - 1));
        w := Step(Step(before, read), UpdateStatus(k - 1));
      }
    }
  }

  lemma CancelOnPath(w: World, k: nat)
    requires OnPath(w, k)
    ensures var w' := Step(Step(w, ReadForAdminCancel(k, "s", "a")), CancelByAdmin(k));
            "s" in w'.ships && Statuses(w'.ships["s"].history) == PATH[..k] + [Cancelled]
  {
    assert Step(w, ReadForAdminCancel(k, "s", "a")).reqs[k] == AdminRead("s", "a", PATH[k - 1]);
    PushStatuses(w.ships["s"], Cancelled, "a");
  }

  /** Every legal history happens. */
  lemma LegalHistoriesHappen(ss: seq<Status>) returns (w: World)
    requires LegalPath(ss)
    ensures Reachable(w) && "s" in w.ships && Statuses(w.ships["s"].history) == ss
  {
    if ss[|ss| - 1].Cancelled? {
      var k := |ss| - 1;
      var before := DeliverUpTo(k);
      CancelOnPath(before, k);
      ReachableNext(before, ReadForAdminCancel(k, "s", "a"));
      ReachableNext(Step(before, ReadForAdminCancel(k, "s", "a")), CancelByAdmin(k));
      w := Step(Step(before, ReadForAdminCancel(k, "s", "a")), CancelByAdmin(k));
      assert ss == PATH[..k] + [Cancelled];
    } else {
      w := DeliverUpTo(|ss|);
      assert ss[..|ss|] == ss;
    }
  }

  /** Some run gives some shipment exactly these statuses. */
  ghost predicate Happens(ss: seq<Status>) {
    exists w: World, sid: ShipmentId :: Reachable(w) && sid in w.ships && Statuses(w.ships[sid].history) == ss
  }

  /** The reachable histories are exactly the non-empty prefixes of the delivery path, each
      optionally followed by one cancellation. */
  lemma ExactHistories(ss: seq<Status>)
    ensures Happens(ss) <==> LegalPath(ss)
  {
    if Happens(ss) {
      var w: World, sid: ShipmentId :| Reachable(w) && sid in w.ships && Statuses(w.ships[sid].history) == ss;
      HistoriesAreLegal(w, sid);
    }
    if LegalPath(ss) {
      var w := LegalHistoriesHappen(ss);
    }
  }

  // ---------------------------------------------------------------- events

  /** Each recorded event announces one entry of its shipment's history, reports the entry just
      before it (an administrator's cancellation: some earlier entry), and shares its entry with no
      other recorded event. */
  lemma EventsMatchHistory(w: World, i: nat)
    requires Reachable(w) && i < |w.events|
    ensures w.events[i].shipment in w.ships
    ensures exists k: nat :: FitsAt(Statuses(w.ships[w.events[i].shipment].history), w.events[i], k)
    ensures forall j :: 0 <= j < |w.events| && j != i ==> Key(w.events[j]) != Key(w.events[i])
  {
    ReachableInv(w);
    assert Fits(w, w.events[i]);
  }

  /** Once no request is between its update and its event write, and none died there, the
      correspondence is a bijection: every entry has exactly one recorded event. */
  lemma EveryEntryIsAnnouncedOnce(w: World, sid: ShipmentId, k: nat) returns (i: nat)
    requires Reachable(w) && sid in w.ships && k < |w.ships[sid].history|
    requires forall q :: q in w.reqs ==> !Silent(w.reqs[q])
    ensures i < |w.events| && Key(w.events[i]) == (sid, w.ships[sid].history[k].status)
    ensures forall j :: 0 <= j < |w.events| && j != i ==> Key(w.events[j]) != (sid, w.ships[sid].history[k].status)
  {
    ReachableInv(w);
    var key := (sid, w.ships[sid].history[k].status);
    assert Accounted(w, key);
    i :| i < |w.events| && Key(w.events[i]) == key;
  }

  /** An entry without a recorded event is the fault of exactly one request, which still owes the
      event or died owing it. */
  lemma UnannouncedEntryHasACulprit(w: World, sid: ShipmentId, k: nat) returns (q: RequestId)
    requires Reachable(w) && sid in w.ships && k < |w.ships[sid].history|
    requires forall i :: 0 <= i < |w.events| ==> Key(w.events[i]) != (sid, w.ships[sid].history[k].status)
    ensures q in w.reqs && Silent(w.reqs[q]) && Key(w.reqs[q].ev) == (sid, w.ships[sid].history[k].status)
    ensures forall r :: r in w.reqs && r != q && Silent(w.reqs[r]) ==> Key(w.reqs[r].ev) != Key(w.reqs[q].ev)
  {
    ReachableInv(w);
    var key := (sid, w.ships[sid].history[k].status);
    assert Accounted(w, key);
    q :| q in w.reqs && Silent(w.reqs[q]) && Key(w.reqs[q].ev) == key;
  }

  // ---------------------------------------------------------------- the previous status of a cancellation

  /** This step commits an update of the shipment. */
  predicate Updated(w: World, a: Action, sid: ShipmentId)
    requires sid in w.ships
  {
    sid !in Step(w, a).ships || Step(w, a).ships[sid] != w.ships[sid]
  }

  /** No step of the run commits an update of the shipment. */
  ghost predicate Undisturbed(w: World, acts: seq<Action>, sid: ShipmentId)
    decreases |acts|
  {
    acts == [] ||
    (var front := acts[..|acts| - 1];
     Undisturbed(w, front, sid) && sid in Run(w, front).ships && !Updated(Run(w, front), acts[|acts| - 1], sid))
  }

  lemma {:induction false} UpdateIsLonger(w: World, a: Action, sid: ShipmentId)
    requires sid in w.ships
    ensures sid in Step(w, a).ships
    ensures Updated(w, a, sid) ==> |Step(w, a).ships[sid].history| == |w.ships[sid].history| + 1
  {
  }

  /** A request that has read for a cancellation keeps what it read until it is done. */
  lemma {:induction false} ReadIsKept(w: World, a: Action, q: RequestId)
    requires q in w.reqs
    ensures q in Step(w, a).reqs && (Step(w, a).reqs[q].AdminRead? ==> Step(w, a).reqs[q] == w.reqs[q])
  {
  }

  /** Along a run the shipment keeps its history as a prefix, which gets longer just when it is disturbed. */
  lemma {:induction false} HistoryTells(w: World, acts: seq<Action>, q: RequestId, sid: ShipmentId)
    requires Inv(w) && q in w.reqs && sid in w.ships
    ensures var v := Run(w, acts);
            && Inv(v) && sid in v.ships && w.ships[sid].history <= v.ships[sid].history
            && (Undisturbed(w, acts, sid) ==> v.ships[sid] == w.ships[sid])
            && (!Undisturbed(w, acts, sid) ==> |v.ships[sid].history| > |w.ships[sid].history|)
            && q in v.reqs && (v.reqs[q].AdminRead? ==> v.reqs[q] == w.reqs[q])
    decreases |acts|
  {
    if acts == [] {
    } else {
      var front, last := acts[..|acts| - 1], acts[|acts| - 1];
      HistoryTells(w, front, q, sid);
      var v := Run(w, front);
      StepInv(v, last);
      assert Grows(v.ships[sid], Step(v, last).ships[sid]);
      UpdateIsLonger(v, last, sid);
      ReadIsKept(v, last, q);
    }
  }

  /** Statuses never repeat in a history. */
  lemma {:induction false} StatusesDiffer(ss: seq<Status>, i: nat, j: nat)
    requires LegalPath(ss) && i < j < |ss|
    ensures ss[i] != ss[j]
  {
    var k := if ss[|ss| - 1].Cancelled? then |ss| - 1 else |ss|;
    assert ss[i] == ss[..k][i] == PATH[i];
    assert j < k ==> ss[j] == ss[..k][j] == PATH[j];
  }

  /** A longer legal history ends in another status. */
  lemma {:induction false} LaterStatusDiffers(sh: Shipment, later: Shipment)
    requires LegalShipment(sh) && LegalShipment(later) && sh.history <= later.history && |later.history| > |sh.history|
    ensures later.status != sh.status
  {
    var i := |sh.history| - 1;
    assert later.history[i] == sh.history[i];
    StatusesDiffer(Statuses(later.history), i, |later.history| - 1);
  }

  /** A matched cancellation announces what was read and appends its entry. */
  lemma {:induction false} CancelStep(w: World, q: RequestId)
    requires Matched(w, CancelByAdmin(q))
    ensures q in w.reqs && w.reqs[q].AdminRead? && w.reqs[q].sid in w.ships
    ensures var p := w.reqs[q];
            var w' := Step(w, CancelByAdmin(q));
            && q in w'.reqs && w'.reqs[q] == Owes(CancelledEvent(p.sid, p.seen, Admin))
            && p.sid in w'.ships && w'.ships[p.sid] == Push(w.ships[p.sid], Cancelled, p.admin)
  {
  }

  /** The entry before the cancellation is the status read, if and only if the history is still the one
      that was read. */
  lemma {:induction false} PreviousTells(sh: Shipment, later: Shipment, admin: UserId, same: bool)
    requires LegalShipment(sh) && LegalShipment(later) && sh.history <= later.history
    requires if same then later == sh else |later.history| > |sh.history|
    ensures var h := Push(later, Cancelled, admin).history;
            |h| >= 2 && (h[|h| - 2].status == sh.status <==> same)
  {
    if !same { LaterStatusDiffers(sh, later); }
  }

  /** The `previousStatus` that an administrator's cancellation announces is the entry before it, if and
      only if no update of the shipment committed between the request's read and its cancellation. */
  lemma {:induction false} AdminPreviousIsExact(w: World, q: RequestId, acts: seq<Action>)
    requires Reachable(w) && q in w.reqs && w.reqs[q].AdminRead?
    requires w.reqs[q].sid in w.ships && w.ships[w.reqs[q].sid].status == w.reqs[q].seen
    requires Matched(Run(w, acts), CancelByAdmin(q))
    ensures var sid, v := w.reqs[q].sid, Step(Run(w, acts), CancelByAdmin(q));
            && q in v.reqs && v.reqs[q].Owes? && sid in v.ships && |v.ships[sid].history| >= 2
            && (v.reqs[q].ev.previous == Some(v.ships[sid].history[|v.ships[sid].history| - 2].status)
                <==> Undisturbed(w, acts, sid))
  {
    ReachableInv(w);
    var sid, v := w.reqs[q].sid, Run(w, acts);
    HistoryTells(w, acts, q, sid);
    CancelStep(v, q);
    PreviousTells(w.ships[sid], v.ships[sid], v.reqs[q].admin, Undisturbed(w, acts, sid));
  }

  // A run in which a cancellation reports an old previous status.
  const S1 := World(map["s" := Shipment("u", None, Pending, [Entry(Pending, "u")])],
      map[0 := Owes(CreatedEvent("s"))], [])
  const S2 := S1.(reqs := map[0 := Owes(CreatedEvent("s")), 1 := AdminRead("s", "a", Pending)])
  const S3 := World(map["s" := Shipment("u", Some("d"), Assigned, [Entry(Pending, "u"), Entry(Assigned, "b")])],
                    map[0 := Owes(CreatedEvent("s")), 1 := AdminRead("s", "a", Pending),
                        2 := Owes(AssignedEvent("s"))], [])
  const S4 := World(map["s" := Shipment("u", Some("d"), Cancelled,
      [Entry(Pending, "u"), Entry(Assigned, "b"), Entry(Cancelled, "a")])],
                    map[0 := Owes(CreatedEvent("s")), 1 := Owes(CancelledEvent("s", Pending, Admin)),
                        2 := Owes(AssignedEvent("s"))], [])

  lemma StaleSteps()
    ensures Step(EMPTY, Create(0, "s", "u")) == S1
    ensures Step(S1, ReadForAdminCancel(1, "s", "a")) == S2
    ensures Step(S2, AssignDriver(2, "s", "d", "b")) == S3
  {
    assert [Entry(Pending, "u")] + [Entry(Assigned, "b")] == [Entry(Pending, "u"), Entry(Assigned, "b")];
  }

  lemma StaleCancel()
    ensures Step(S3, CancelByAdmin(1)) == S4
  {
    assert [Entry(Pending, "u"), Entry(Assigned, "b")] + [Entry(Cancelled, "a")] ==
        [Entry(Pending, "u"), Entry(Assigned, "b"), Entry(Cancelled, "a")];
  }

  /** It can be older: the administrator reads `pending`, a driver is assigned, the cancellation lands. */
  lemma AdminPreviousCanBeStale() returns (w: World)
    ensures Reachable(w) && "s" in w.ships && Statuses(w.ships["s"].history) == [Pending, Assigned, Cancelled]
    ensures |w.events| == 1 && w.events[0].next == Cancelled && w.events[0].previous == Some(Pending)
  {
    assert EMPTY == Run(EMPTY, []);
    StaleSteps();
    StaleCancel();
    ReachableNext(EMPTY, Create(0, "s", "u"));
    ReachableNext(S1, ReadForAdminCancel(1, "s", "a"));
    ReachableNext(S2, AssignDriver(2, "s", "d", "b"));
    ReachableNext(S3, CancelByAdmin(1));
    ReachableNext(S4, WriteEvent(1));
    w := Step(S4, WriteEvent(1));
  }
}
