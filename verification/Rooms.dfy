/**
 Shipment rooms (src/services/socketService.js) beside the shipment controllers. The access check
 of a join and the join itself are separate steps, with any shipment updates in between. A client names
 the shipment in its own spelling: the query reads it as an ObjectId, whose hexadecimal digits may be
 capital letters, while the room it joins carries the spelling as it came.
*/
module Rooms {
  import opened Options
  import opened ShipmentEvents
  import opened Lifecycle
  import opened LifecycleProofs

  type SocketId = nat

  datatype Role = AdminRole | ShipperRole | DriverRole | OtherRole

  datatype User = User(id: UserId, role: Role)

  function LowerHex(c: char): char {
    if 'A' <= c <= 'F' then (c as int + 32) as char else c
  }

  /** The ObjectId that a spelling denotes, as the database writes it. */
  function Canonical(given: string): (sid: ShipmentId)
    ensures |sid| == |given| && forall i :: 0 <= i < |given| ==> sid[i] == LowerHex(given[i])
  {
    seq(|given|, i requires 0 <= i < |given| => LowerHex(given[i]))
  }

  /** `cleared`: joins whose check has passed and which have not happened yet; `members`: room by name. */
  datatype Hub = Hub(world: World, users: map<SocketId, User>, cleared: set<(SocketId, string)>,
      members: set<(SocketId, string)>)

  datatype HubAction =
    | Life(a: Action)
    | Connect(socket: SocketId, user: User)
    | CheckJoin(socket: SocketId, given: string)
    | Join(socket: SocketId, given: string)
    | Leave(socket: SocketId, given: string)
    | Disconnect(socket: SocketId)

  const EMPTY_HUB := Hub(EMPTY, map[], {}, {})

  predicate CanJoin(user: User, sh: Shipment) {
    match user.role
    case AdminRole => true
    case ShipperRole => sh.shipper == user.id
    case DriverRole => sh.driver == Some(user.id)
    case OtherRole => false
  }

  /** The database makes up the ids of new shipments, so they come in its own spelling. */
  predicate IdsAreStored(a: Action) {
    a.Create? ==> Canonical(a.sid) == a.sid
  }

  function HubStep(h: Hub, a: HubAction): Hub {
    match a
    case Life(act) => if IdsAreStored(act) then h.(world := Step(h.world, act)) else h
    case Connect(socket, user) => if socket in h.users then h else h.(users := h.users[socket := user])
    case CheckJoin(socket, given) =>
      var sid := Canonical(given);
      if socket in h.users && sid in h.world.ships && CanJoin(h.users[socket], h.world.ships[sid])
      then h.(cleared := h.cleared + {(socket, given)})
      else h
    case Join(socket, given) =>
      if (socket, given) in h.cleared
      then h.(cleared := h.cleared - {(socket, given)}, members := h.members + {(socket, RoomOf(given))})
      else h
    case Leave(socket, given) => h.(members := h.members - {(socket, RoomOf(given))})
    case Disconnect(socket) => h.(members := set m | m in h.members && m.0 != socket)
  }

  function HubRun(acts: seq<HubAction>): Hub
    decreases |acts|
  {
    if acts == [] then EMPTY_HUB else HubStep(HubRun(acts[..|acts| - 1]), acts[|acts| - 1])
  }

  predicate Allowed(h: Hub, socket: SocketId, sid: ShipmentId) {
    socket in h.users && sid in h.world.ships && CanJoin(h.users[socket], h.world.ships[sid])
  }

  /** Every member of every room may join that room's shipment as it is now. */
  ghost predicate RoomsSound(h: Hub) {
    && (forall socket, given :: (socket, given) in h.cleared ==> Allowed(h, socket, Canonical(given)))
    && (forall socket, room :: (socket, room) in h.members ==> InRoom(h, socket, room))
  }

  /** Who may join a shipment may join it for ever: its shipper is fixed, its driver written once. */
  lemma AllowedForever(h: Hub, h': Hub, socket: SocketId, sid: ShipmentId)
    requires Allowed(h, socket, sid) && HubGrows(h, h')
    ensures Allowed(h', socket, sid)
  {
    assert Grows(h.world.ships[sid], h'.world.ships[sid]);
  }

  ghost predicate HubGrows(h: Hub, h': Hub) {
    && WorldGrows(h.world, h'.world)
    && (forall socket :: socket in h.users ==> socket in h'.users && h'.users[socket] == h.users[socket])
  }

  lemma {:induction false} WorldStepGrows(h: Hub, world: World)
    requires Inv(world) && WorldGrows(h.world, world)
    ensures Inv(h.(world := world).world) && HubGrows(h, h.(world := world))
  {
  }

  lemma {:induction false} SocketStepGrows(h: Hub, a: HubAction)
    requires !a.Life?
    ensures HubStep(h, a).world == h.world && HubGrows(h, HubStep(h, a))
  {
  }

  lemma {:induction false} HubStepGrows(h: Hub, a: HubAction)
    requires Inv(h.world)
    ensures Inv(HubStep(h, a).world) && HubGrows(h, HubStep(h, a))
  {
    match a
    case Life(act) =>
      if IdsAreStored(act) {
        StepInv(h.world, act);
        WorldStepGrows(h, Step(h.world, act));
      }
    case _ => SocketStepGrows(h, a);
  }

  ghost predicate InRoom(h: Hub, socket: SocketId, room: string) {
    exists given :: room == RoomOf(given) && Allowed(h, socket, Canonical(given))
  }

  lemma InRoomForever(h: Hub, h': Hub, socket: SocketId, room: string)
    requires InRoom(h, socket, room) && HubGrows(h, h')
    ensures InRoom(h', socket, room)
  {
    var given :| room == RoomOf(given) && Allowed(h, socket, Canonical(given));
    AllowedForever(h, h', socket, Canonical(given));
  }

  lemma HubStepSound(h: Hub, a: HubAction)
    requires RoomsSound(h) && HubGrows(h, HubStep(h, a))
    ensures RoomsSound(HubStep(h, a))
  {
    var h' := HubStep(h, a);
    forall socket, given | (socket, given) in h'.cleared ensures Allowed(h', socket, Canonical(given)) {
      if (socket, given) in h.cleared { AllowedForever(h, h', socket, Canonical(given)); }
    }
    forall socket, room | (socket, room) in h'.members ensures InRoom(h', socket, room) {
      if (socket, room) in h.members {
        InRoomForever(h, h', socket, room);
      } else {
        AllowedForever(h, h', socket, Canonical(a.given));
      }
    }
  }

  lemma {:induction false} HubRunSound(acts: seq<HubAction>)
    ensures RoomsSound(HubRun(acts)) && Inv(HubRun(acts).world)
    decreases |acts|
  {
    if acts == [] {
    } else {
      HubRunSound(acts[..|acts| - 1]);
      HubStepGrows(HubRun(acts[..|acts| - 1]), acts[|acts| - 1]);
      HubStepSound(HubRun(acts[..|acts| - 1]), acts[|acts| - 1]);
    }
  }

  lemma RoomNamesDiffer(a: string, b: string)
    requires RoomOf(a) == RoomOf(b)
    ensures a == b
  {
    assert RoomOf(a)[|"shipment_"|..] == a;
    assert RoomOf(b)[|"shipment_"|..] == b;
  }

  /** In every run, a socket in the room of a shipment, under whatever spelling, belongs to an administrator, to
      the shipment's current shipper, or to its current driver. */
  lemma OnlyInsidersInRoom(acts: seq<HubAction>, socket: SocketId, given: string)
    requires (socket, RoomOf(given)) in HubRun(acts).members
    ensures Allowed(HubRun(acts), socket, Canonical(given))
  {
    HubRunSound(acts);
    var s :| RoomOf(given) == RoomOf(s) && Allowed(HubRun(acts), socket, Canonical(s));
    RoomNamesDiffer(given, s);
  }

  /** Shipments have stored ids, and what is or will be announced concerns stored shipments. */
  ghost predicate AllStored(w: World) {
    && (forall sid :: sid in w.ships ==> Canonical(sid) == sid)
    && (forall i :: 0 <= i < |w.events| ==> w.events[i].shipment in w.ships)
    && (forall q :: q in w.reqs && Silent(w.reqs[q]) ==> w.reqs[q].ev.shipment in w.ships)
  }

  lemma StepStored(w: World, a: Action)
    requires AllStored(w) && IdsAreStored(a)
    ensures AllStored(Step(w, a))
  {
  }

  lemma {:induction false} HubEventsStored(acts: seq<HubAction>)
    ensures AllStored(HubRun(acts).world)
    decreases |acts|
  {
    if acts == [] {
    } else {
      var last := acts[|acts| - 1];
      HubEventsStored(acts[..|acts| - 1]);
      if last.Life? && IdsAreStored(last.a) { StepStored(HubRun(acts[..|acts| - 1]).world, last.a); }
    }
  }

  /** Whenever a recorded lifecycle event is emitted, it goes to the room of its own shipment, every
      message in it names that shipment, and everyone who hears it is an insider of that shipment. */
  lemma EmissionsReachInsiders(acts: seq<HubAction>, i: nat, socket: SocketId)
    requires var h := HubRun(acts); i < |h.world.events| && (socket, EmissionRoom(h.world.events[i])) in h.members
    ensures var h := HubRun(acts);
            && EmissionRoom(h.world.events[i]) == RoomOf(h.world.events[i].shipment)
            && (forall m :: m in h.world.events[i].socketEvents ==> m.shipment == h.world.events[i].shipment)
            && Allowed(h, socket, h.world.events[i].shipment)
  {
    HubEventsBuilt(acts);
    HubEventsStored(acts);
    var ev := HubRun(acts).world.events[i];
    assert Built(ev);
    OnlyInsidersInRoom(acts, socket, ev.shipment);
  }

  /** Of the rooms that a shipment's insiders may join under its different spellings, its events reach the one
      with the stored spelling and no other. */
  lemma HeardUnderStoredSpelling(acts: seq<HubAction>, i: nat, given: string)
    requires i < |HubRun(acts).world.events| && Canonical(given) == HubRun(acts).world.events[i].shipment
    ensures EmissionRoom(HubRun(acts).world.events[i]) == RoomOf(given) <==> Canonical(given) == given
  {
    HubEventsBuilt(acts);
    var ev := HubRun(acts).world.events[i];
    assert Built(ev);
    if RoomOf(ev.shipment) == RoomOf(given) { RoomNamesDiffer(ev.shipment, given); }
  }

  /** The shipment's own shipper joins under capital digits and does not hear its events. */
  lemma DeafJoinHappens(socket: SocketId)
    ensures var acts := [Life(Create(0, "a", "s")), Connect(socket, User("s", ShipperRole)), CheckJoin(socket, "A"),
                         Join(socket, "A")];
            var h := HubRun(acts);
            && (socket, RoomOf("A")) in h.members && Allowed(h, socket, "a") && (socket, RoomOf("a")) !in h.members
  {
    assert Canonical("A") == "a" && Canonical("a") == "a";
    var create, connect := Life(Create(0, "a", "s")), Connect(socket, User("s", ShipperRole));
    var check, join := CheckJoin(socket, "A"), Join(socket, "A");
    var acts := [create, connect, check, join];
    assert acts[..3] == [create, connect, check] && [create, connect, check][..2] == [create, connect];
    assert [create, connect][..1] == [create] && [create][..0] == [];
    var h1 := HubStep(EMPTY_HUB, create);
    assert h1 == HubRun([create]) && "a" in h1.world.ships && h1.world.ships["a"].shipper == "s";
    var h3 := HubStep(HubStep(h1, connect), check);
    assert h3 == HubRun([create, connect, check]) && h3.cleared == {(socket, "A")} && h3.members == {};
    assert HubRun(acts) == HubStep(h3, join);
    if RoomOf("A") == RoomOf("a") { RoomNamesDiffer("A", "a"); }
  }

  /** The event is what one of the builders makes. */
  predicate Built(ev: Event) {
    || ev == CreatedEvent(ev.shipment)
    || ev == AssignedEvent(ev.shipment)
    || (ev.previous.Some? && ev.cancelledBy.Some?
         && ev == CancelledEvent(ev.shipment, ev.previous.value, ev.cancelledBy.value))
    || (ev.previous.Some? && Progression(ev.previous.value) == Some(ev.next)
         && ev == StatusEvent(ev.shipment, ev.previous.value, ev.next))
  }

  ghost predicate AllBuilt(w: World) {
    && (forall i :: 0 <= i < |w.events| ==> Built(w.events[i]))
    && (forall q :: q in w.reqs && Silent(w.reqs[q]) ==> Built(w.reqs[q].ev))
  }

  /** An update that a driver's request is about to make is the next one of the progression. */
  predicate WantsNext(w: World, a: Action) {
    a.UpdateStatus? && Enabled(w, a) ==> Progression(w.reqs[a.q].seen) == Some(w.reqs[a.q].want)
  }

  lemma InvWantsNext(w: World, a: Action)
    requires Inv(w)
    ensures WantsNext(w, a)
  {
    if a.UpdateStatus? && Enabled(w, a) { assert LegalRead(w, w.reqs[a.q]); }
  }

  lemma StepBuilt(w: World, a: Action)
    requires AllBuilt(w) && WantsNext(w, a)
    ensures AllBuilt(Step(w, a))
  {
  }

  lemma {:induction false} HubEventsBuilt(acts: seq<HubAction>)
    ensures AllBuilt(HubRun(acts).world)
    decreases |acts|
  {
    if acts == [] {
    } else {
      var last := acts[|acts| - 1];
      HubEventsBuilt(acts[..|acts| - 1]);
      HubRunSound(acts[..|acts| - 1]);
      if last.Life? && IdsAreStored(last.a) {
        InvWantsNext(HubRun(acts[..|acts| - 1]).world, last.a);
        StepBuilt(HubRun(acts[..|acts| - 1]).world, last.a);
      }
    }
  }

  /** The messages that announce a shipment's arrival in a status. */
  function Announcements(status: Status): seq<string> {
    match status
    case Pending => []
    case Assigned => ["driverAssigned"]
    case Delivered => ["statusUpdated", "shipmentDelivered"]
    case _ => ["statusUpdated"]
  }

  function NamesOf(messages: seq<SocketEvent>): (names: seq<string>)
    ensures |names| == |messages| && forall i :: 0 <= i < |names| ==> names[i] == messages[i].name
  {
    seq(|messages|, i requires 0 <= i < |messages| => messages[i].name)
  }

  /** The type of the event that announces a shipment's arrival in a status. */
  function TypeOf(status: Status): string {
    match status
    case Pending => "shipment.created"
    case Assigned => "shipment.assigned"
    case Delivered => "shipment.delivered"
    case Cancelled => "shipment.cancelled"
    case _ => "shipment.status_updated"
  }

  /** In every run the type and the messages of a recorded event are those of the status it announces. */
  lemma EmissionsFollowStatus(acts: seq<HubAction>, i: nat)
    requires i < |HubRun(acts).world.events|
    ensures var ev := HubRun(acts).world.events[i];
            NamesOf(ev.socketEvents) == Announcements(ev.next) && ev.kind == TypeOf(ev.next)
  {
    HubEventsBuilt(acts);
    assert Built(HubRun(acts).world.events[i]);
  }

  // ---------------------------------------------------------------- who gets in

  /** What a join is answered: an administrator is let in, the shipment's shipper as a shipper, its driver as a
      driver, and nobody else; whoever is let in is in the room after the join. */
  lemma {:induction false} JoinsAreAnswered(h: Hub, socket: SocketId, given: string)
    requires socket in h.users && Canonical(given) in h.world.ships
    ensures var user, sh := h.users[socket], h.world.ships[Canonical(given)];
            var h' := HubStep(h, CheckJoin(socket, given));
            var isInsider := user.role.AdminRole? || (user.role.ShipperRole? && user.id == sh.shipper)
              || (user.role.DriverRole? && sh.driver == Some(user.id));
            && (isInsider ==> (socket, given) in h'.cleared)
            && (!isInsider ==> h' == h)
            && (isInsider ==>
                 var joined := HubStep(h', Join(socket, given));
                 (socket, RoomOf(given)) in joined.members && (socket, given) !in joined.cleared)
  {
  }

  /** In every run, whoever has signed a shipment's creation as its shipper, or one of its driver's reports as its
      driver, gets into its room. */
  lemma {:induction false} SignersGetIn(acts: seq<HubAction>, socket: SocketId, sid: ShipmentId, k: nat)
    requires var h := HubRun(acts);
             && socket in h.users && Canonical(sid) == sid && sid in h.world.ships && k < |h.world.ships[sid].history|
             && h.users[socket].id == h.world.ships[sid].history[k].author
    requires var h := HubRun(acts);
             || (k == 0 && h.users[socket].role.ShipperRole?)
             || (DriverMade(h.world.ships[sid].history[k].status) && h.users[socket].role.DriverRole?)
    ensures var h := HubRun(acts);
            (socket, RoomOf(sid)) in HubStep(HubStep(h, CheckJoin(socket, sid)), Join(socket, sid)).members
  {
    HubRunSound(acts);
    assert LegalShipment(HubRun(acts).world.ships[sid]);
    JoinsAreAnswered(HubRun(acts), socket, sid);
  }

  /** A leave takes the socket out of just that room, and a disconnect out of all; both leave the others alone. */
  lemma {:induction false} LeavingLeaves(h: Hub, socket: SocketId, given: string, other: SocketId, room: string)
    ensures (other, room) in HubStep(h, Leave(socket, given)).members <==>
              (other, room) in h.members && !(other == socket && room == RoomOf(given))
    ensures (other, room) in HubStep(h, Disconnect(socket)).members <==> (other, room) in h.members && other != socket
  {
  }
}
