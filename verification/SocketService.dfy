/** The join, leave and disconnect handlers (src/services/socketService.js) over the rooms they change. */
module SocketService {
  import opened Options
  import opened ShipmentEvents
  import opened Rooms
  import Lifecycle

  class SocketServer {
    ghost var world: Lifecycle.World
    var users: map<SocketId, User>
    var cleared: set<(SocketId, string)>
    var members: set<(SocketId, string)>

    ghost function View(): Hub
      reads this
    {
      Hub(world, users, cleared, members)
    }

    constructor ()
      ensures View() == EMPTY_HUB
    {
      world, users, cleared, members := Lifecycle.EMPTY, map[], {}, {};
    }

    /** canJoinShipmentRoom. */
    static method CanJoinShipmentRoom(user: Option<User>, shipment: Option<Lifecycle.Shipment>) returns (allowed: bool)
      ensures allowed <==> user.Some? && shipment.Some? && CanJoin(user.value, shipment.value)
    {
      if user.None? || shipment.None? {
        return false;
      }
      if user.value.role.AdminRole? {
        return true;
      }
      if user.value.role.ShipperRole? {
        return shipment.value.shipper == user.value.id;
      }
      if user.value.role.DriverRole? {
        return shipment.value.driver == Some(user.value.id);
      }
      return false;
    }

    /** joinShipmentRoom up to its check, for the answer of its query, which reads the id as an ObjectId. */
    method CheckJoinRequest(socket: SocketId, given: string, shipment: Option<Lifecycle.Shipment>)
      returns (allowed: bool)
      requires socket in users
      requires var sid := Canonical(given); shipment == if sid in world.ships then Some(world.ships[sid]) else None
      modifies this`cleared
      ensures View() == HubStep(old(View()), CheckJoin(socket, given))
      ensures allowed <==> Allowed(View(), socket, Canonical(given))
    {
      if shipment.None? {
        return false;
      }
      allowed := CanJoinShipmentRoom(Some(users[socket]), shipment);
      if allowed {
        cleared := cleared + {(socket, given)};
      }
    }

    /** The rest of joinShipmentRoom: the room is named by the spelling as it came. */
    method JoinRoom(socket: SocketId, given: string)
      requires (socket, given) in cleared
      modifies this`cleared, this`members
      ensures View() == HubStep(old(View()), Join(socket, given))
    {
      cleared := cleared - {(socket, given)};
      members := members + {(socket, "shipment_" + given)};
    }

    method LeaveRoom(socket: SocketId, given: string)
      modifies this`members
      ensures View() == HubStep(old(View()), Leave(socket, given))
    {
      members := members - {(socket, "shipment_" + given)};
    }

    method DisconnectSocket(socket: SocketId)
      modifies this`members
      ensures View() == HubStep(old(View()), Disconnect(socket))
    {
      members := set m | m in members && m.0 != socket;
    }
  }
}
