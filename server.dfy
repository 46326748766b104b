/** The registry as the server keeps it: `Room` objects whose member sets,
    acks, seal and activity time the handlers update in place, and a
    `Registry` holding the room dict (with its insertion order), the
    sessions, the lobby subscriptions and the two id counters. Each handler
    method runs as one step under the registry lock and is proved to do
    what the corresponding step function of `Rooms` says. */
module Server {
  import opened Protocol
  import opened Text
  import opened Lobbies
  import opened Rooms
  import opened PruneProofs

  /** Some element of a non-empty set: the next one a loop over the set
      visits, in whatever order the set iterates. */
  method Pick<T>(s: set<T>) returns (x: T)
    requires s != {}
    ensures x in s
  {
    x :| x in s;
  }

  /** The `Room` dataclass. */
  class Room {
    const roomId: RoomId
    const hostId: PeerId
    const topology: Topology
    const capacity: int
    const tags: seq<string>
    var isSealed: bool
    var peerIds: set<PeerId>
    var connectedAck: set<PeerId>
    var lastActivity: int

    function View(): RoomState
      reads this
    {
      RoomState(roomId, hostId, topology, capacity, isSealed, peerIds, connectedAck, tags, lastActivity)
    }

    constructor (roomId: RoomId, hostId: PeerId, topology: Topology, capacity: int, tags: seq<string>, now: int)
      ensures View() == RoomState(roomId, hostId, topology, capacity, false, {}, {}, tags, now)
    {
      this.roomId := roomId;
      this.hostId := hostId;
      this.topology := topology;
      this.capacity := capacity;
      this.tags := tags;
      isSealed := false;
      peerIds := {};
      connectedAck := {};
      lastActivity := now;
    }

    /** `Room.is_full`. */
    predicate Full()
      reads this
    {
      capacity > 0 && |peerIds| >= capacity
    }
  }

  class Registry {
    var rooms: map<RoomId, Room>
    var roomOrder: seq<RoomId>
    var peers: map<PeerId, PeerSession>
    var lobbySubscriptions: map<ConnId, LobbySubscription>
    var nextPeerId: int
    var nextConnectionId: int

    /** Every room is stored under its own id, so distinct keys hold
        distinct objects. */
    ghost predicate Valid()
      reads this, rooms.Values
    {
      forall k :: k in rooms ==> rooms[k].roomId == k
    }

    /** The stored rooms as values. */
    function RoomViews(): map<RoomId, RoomState>
      reads this`rooms, rooms.Values
    {
      map k | k in rooms :: rooms[k].View()
    }

    /** The registry as a value. */
    function Abs(): RegistryState
      reads this, rooms.Values
    {
      RegistryState(RoomViews(), roomOrder, peers, lobbySubscriptions, nextPeerId, nextConnectionId)
    }

    /** `Registry.__init__`. */
    constructor ()
      ensures Valid() && Abs() == Init()
    {
      rooms := map[];
      roomOrder := [];
      peers := map[];
      lobbySubscriptions := map[];
      nextPeerId := 1;
      nextConnectionId := 1;
    }

    /** `allocate_peer_id`. */
    method AllocatePeerId() returns (pid: PeerId)
      modifies this`nextPeerId
      ensures pid == old(nextPeerId) && nextPeerId == pid + 1
      ensures Abs() == old(Abs()).(nextPeerId := pid + 1)
    {
      pid := nextPeerId;
      nextPeerId := nextPeerId + 1;
    }

    /** `allocate_connection_id`: the step `AcceptStep` describes. */
    method AllocateConnectionId() returns (c: ConnId)
      requires Valid()
      modifies this`nextConnectionId
      ensures Valid() && (Abs(), c) == AcceptStep(old(Abs()))
    {
      c := nextConnectionId;
      nextConnectionId := nextConnectionId + 1;
      assert Abs().rooms == old(Abs()).rooms;
    }

    /** The websockets of the sessions of `ids` (the loop over
        `notify_peer_ids` in `handle_join`). */
    method SessionRecipients(ids: set<PeerId>) returns (to: set<Recipient>)
      ensures to == SessionTargets(peers, ids)
    {
      to := {};
      var todo := ids;
      while todo != {}
        invariant todo <= ids
        invariant forall r :: r in to <==> r.Peer? && r.peer in ids - todo && r.peer in peers
        decreases |todo|
      {
        var p := Pick(todo);
        if p in peers {
          to := to + {Peer(p)};
        }
        todo := todo - {p};
      }
      assert to == SessionTargets(peers, ids);
    }

    /** `broadcast_room`: the members of `room` with a session, except
        `exclude`. */
    method BroadcastRecipients(room: Room, exclude: Option<PeerId>) returns (to: set<Recipient>)
      ensures to == BroadcastTargets(peers, room.peerIds, exclude)
    {
      to := {};
      var todo := room.peerIds;
      while todo != {}
        invariant todo <= room.peerIds
        invariant forall r :: r in to <==>
                    r.Peer? && r.peer in room.peerIds - todo && exclude != Some(r.peer) && r.peer in peers
        decreases |todo|
      {
        var p := Pick(todo);
        if exclude != Some(p) && p in peers {
          to := to + {Peer(p)};
        }
        todo := todo - {p};
      }
      assert to == BroadcastTargets(peers, room.peerIds, exclude);
    }

    /** `notify_lobby_room_changed`: an upsert to the subscribers that see
        the room, a removal to the others. */
    method NotifyLobbyRoomChanged(roomId: RoomId) returns (out: seq<Outbound>)
      requires Valid()
      ensures out == LobbyDeltas(Abs(), roomId)
    {
      var up, rm := SortSubscribers(roomId);
      if roomId in rooms {
        var room := rooms[roomId];
        out := Fanout(up, LobbyUpsert(room.roomId, RoomToLobby(room.View())));
      } else {
        out := [];
      }
      out := out + Fanout(rm, LobbyRemove(roomId));
    }

    /** The loop of `notify_lobby_room_changed` over the subscribers, sorted
        by whether room `roomId` is visible to their filters. */
    method SortSubscribers(roomId: RoomId) returns (up: set<Recipient>, rm: set<Recipient>)
      requires Valid()
      ensures up == UpsertTargets(Abs(), roomId) && rm == RemoveTargets(Abs(), roomId)
    {
      ghost var s := Abs();
      up, rm := {}, {};
      var present := roomId in rooms;
      assert present ==> rooms[roomId].View() == s.rooms[roomId];
      var todo := lobbySubscriptions.Keys;
      while todo != {}
        invariant todo <= s.subscriptions.Keys
        invariant forall r :: r in up <==>
                    r.Conn? && r.conn in s.subscriptions.Keys - todo
                    && present && IsVisible(s.rooms[roomId], s.subscriptions[r.conn].filterTags)
        invariant forall r :: r in rm <==>
                    r.Conn? && r.conn in s.subscriptions.Keys - todo
                    && !(present && IsVisible(s.rooms[roomId], s.subscriptions[r.conn].filterTags))
        decreases |todo|
      {
        var c := Pick(todo);
        if present && IsVisible(rooms[roomId].View(), lobbySubscriptions[c].filterTags) {
          up := up + {Conn(c)};
        } else {
          rm := rm + {Conn(c)};
        }
        todo := todo - {c};
      }
    }

    /** `maybe_emit_match_ready`. */
    method MaybeEmitMatchReady(roomId: RoomId, now: int) returns (out: seq<Outbound>)
      requires Valid()
      modifies rooms.Values
      ensures Valid()
      ensures Step(Abs(), out) == MatchReadyStep(old(Abs()), roomId, now)
    {
      if roomId !in rooms {
        return [];
      }
      var room := rooms[roomId];
      if !room.Full() {
        return [];
      }
      if |room.connectedAck| < |room.peerIds| {
        return [];
      }
      room.lastActivity := now;
      assert Abs() == Touch(old(Abs()), roomId, now);
      var to := BroadcastRecipients(room, None);
      out := Fanout(to, MatchReady);
    }

    /** `handle_peer_connected`, with the ack restricted to members of the
        room (the step `PeerConnectedStep` describes). */
    method HandlePeerConnected(pid: PeerId, now: int) returns (out: seq<Outbound>)
      requires Valid()
      modifies rooms.Values
      ensures Valid()
      ensures Step(Abs(), out) == PeerConnectedStep(old(Abs()), pid, now)
    {
      if pid !in peers {
        return [];
      }
      var roomId := peers[pid].roomId;
      if roomId !in rooms {
        return [];
      }
      var room := rooms[roomId];
      if pid in room.peerIds {
        room.connectedAck := room.connectedAck + {pid};
      }
      room.lastActivity := now;
      ghost var acked := old(Abs());
      assert Abs() == acked.(rooms := acked.rooms[roomId := room.View()]);
      out := MaybeEmitMatchReady(roomId, now);
    }

    /** `handle_signal` from the bound peer `from`. */
    method HandleSignal(from: PeerId, m: Fields, now: int) returns (out: seq<Outbound>)
      requires Valid()
      modifies rooms.Values
      ensures Valid()
      ensures Step(Abs(), out) == SignalStep(old(Abs()), from, m, now)
    {
      if m.targetId == 0 {
        if from in peers {
          return [Outbound({Peer(from)}, Error("target_id_required"))];
        }
        return [];
      }
      if from !in peers || m.targetId !in peers {
        return [];
      }
      var source := peers[from];
      var target := peers[m.targetId];
      if source.roomId != target.roomId {
        return [Outbound({Peer(from)}, Error("cross_room_signal_blocked"))];
      }
      if source.roomId !in rooms {
        return [];
      }
      var room := rooms[source.roomId];
      room.lastActivity := now;
      assert Abs() == Touch(old(Abs()), source.roomId, now);
      out := [Outbound({Peer(m.targetId)}, Signal(from, m.sdp, m.ice))];
    }

    /** `handle_list_lobbies`. */
    method HandleListLobbies(conn: ConnId, m: Fields) returns (out: seq<Outbound>)
      requires Valid()
      ensures out == ListLobbiesStep(Abs(), conn, m)
    {
      var tags := NormalizeFilterTags(m.filterTags);
      var lobbies := BuildLobbySnapshot(RoomsAlong(roomOrder, Abs().rooms), tags);
      out := Reply(conn, LobbyList(lobbies)) + Reply(conn, LobbySnapshot(lobbies));
    }

    /** `handle_subscribe_lobbies`. */
    method HandleSubscribeLobbies(conn: ConnId, m: Fields) returns (out: seq<Outbound>)
      requires Valid()
      modifies this`lobbySubscriptions
      ensures Valid()
      ensures Step(Abs(), out) == SubscribeStep(old(Abs()), conn, m)
    {
      var f := NormalizeFilterTags(m.filterTags);
      lobbySubscriptions := lobbySubscriptions[conn := LobbySubscription(conn, f)];
      var lobbies := BuildLobbySnapshot(RoomsAlong(roomOrder, Abs().rooms), f);
      out := Reply(conn, LobbySnapshot(lobbies));
    }

    /** `handle_unsubscribe_lobbies`. */
    method HandleUnsubscribeLobbies(conn: ConnId)
      requires Valid()
      modifies this`lobbySubscriptions
      ensures Valid()
      ensures Abs() == UnsubscribeStep(old(Abs()), conn)
    {
      lobbySubscriptions := lobbySubscriptions - {conn};
    }

    /** `handle_disconnect`. */
    method HandleDisconnect(pid: PeerId, now: int) returns (out: seq<Outbound>)
      requires Valid()
      modifies this, rooms.Values
      ensures Valid() && rooms.Values <= old(rooms.Values)
      ensures Step(Abs(), out) == DisconnectStep(old(Abs()), pid, now)
    {
      if pid !in peers {
        return [];
      }
      ghost var before := Abs();
      var room := DetachPeer(pid, now);
      ghost var after := Abs();
      DisconnectShape(before, after, pid, now);
      if room == null {
        return [];
      }
      out := LeaveMessages(before.rooms[room.roomId], room, pid);
    }

    /** The messages of `handle_disconnect` once `pid` has left `room`,
        whose state before was `was`. */
    method LeaveMessages(ghost was: RoomState, room: Room, pid: PeerId) returns (out: seq<Outbound>)
      requires Valid()
      requires room.roomId == was.roomId && room.hostId == was.hostId && room.peerIds == was.peerIds - {pid}
      ensures out == LeaveNotice(was, peers, pid) + LobbyDeltas(Abs(), room.roomId)
    {
      var notice: seq<Outbound> := [];
      if pid == room.hostId {
        var to := BroadcastRecipients(room, None);
        notice := Fanout(to, RoomClosed);
      } else if |room.peerIds| > 0 {
        var to := BroadcastRecipients(room, None);
        notice := Fanout(to, PeerLeft(pid));
      }
      var deltas := NotifyLobbyRoomChanged(room.roomId);
      out := notice + deltas;
    }

    /** The locked part of `handle_disconnect`: drop the session, take the
        peer out of its room, and drop or unseal the room. Returns the room,
        or null when the session names no stored room. */
    method DetachPeer(pid: PeerId, now: int) returns (room: Room?)
      requires Valid() && pid in peers
      modifies this, rooms.Values
      ensures Valid() && rooms.Values <= old(rooms.Values)
      ensures Abs() == Detached(old(Abs()), pid, now)
      ensures var k := old(peers[pid].roomId);
              && (room == null <==> k !in old(rooms))
              && (room != null ==> room.roomId == k && room.hostId == old(rooms[k].hostId)
                                   && room.peerIds == old(rooms[k].peerIds) - {pid})
    {
      ghost var s0 := Abs();
      var session := peers[pid];
      peers := peers - {pid};
      ghost var s1 := Abs();
      assert s1 == s0.(peers := s0.peers - {pid});
      if session.roomId !in rooms {
        return null;
      }
      room := rooms[session.roomId];
      LeaveRoom(room, pid, now);
      ghost var s2 := Abs();
      var drop := pid == room.hostId || |room.peerIds| == 0;
      if drop {
        DropRoom(room.roomId);
      } else {
        Unseal(room);
      }
      DetachSteps(s0, s1, s2, Abs(), pid, now);
    }

    /** `discard` of `pid` from the room's members and acks, and
        `update_activity`. */
    method LeaveRoom(room: Room, pid: PeerId, now: int)
      requires Valid() && room.roomId in rooms && rooms[room.roomId] == room
      modifies room
      ensures Valid()
      ensures room.View() == Left(old(room.View()), pid, now)
      ensures Abs() == old(Abs()).(rooms := old(Abs()).rooms[room.roomId := Left(old(Abs()).rooms[room.roomId], pid, now)])
    {
      ghost var s := Abs();
      room.peerIds, room.connectedAck, room.lastActivity := room.peerIds - {pid}, room.connectedAck - {pid}, now;
      ghost var rs := s.rooms[room.roomId := Left(s.rooms[room.roomId], pid, now)];
      forall j | j in rooms
        ensures rooms[j].View() == rs[j]
      {
        if j != room.roomId {
          assert rooms[j] in old(rooms.Values);
        }
      }
      assert Abs().rooms == rs;
    }

    /** `room.is_sealed = False` on a stored room. */
    method Unseal(room: Room)
      requires Valid() && room.roomId in rooms && rooms[room.roomId] == room
      modifies room
      ensures Valid()
      ensures Abs() == old(Abs()).(rooms := old(Abs()).rooms[room.roomId := old(Abs()).rooms[room.roomId].(isSealed := false)])
    {
      ghost var s := Abs();
      room.isSealed := false;
      ghost var rs := s.rooms[room.roomId := s.rooms[room.roomId].(isSealed := false)];
      forall j | j in rooms
        ensures rooms[j].View() == rs[j]
      {
        if j != room.roomId {
          assert rooms[j] in old(rooms.Values);
        }
      }
      assert Abs().rooms == rs;
    }

    /** `registry.rooms.pop(room_id)`. */
    method DropRoom(id: RoomId)
      requires Valid()
      modifies this`rooms, this`roomOrder
      ensures Valid() && rooms.Values <= old(rooms.Values)
      ensures Abs() == old(Abs()).(rooms := old(Abs()).rooms - {id}, roomOrder := Without(old(roomOrder), {id}))
    {
      rooms := rooms - {id};
      roomOrder := Without(roomOrder, {id});
    }

    /** One turn of the `websocket_endpoint` loop on connection `conn`,
        whose bound peer id is `bound`: a received message goes to its
        handler; a closed socket runs the cleanup of the `except` arms. */
    method Dispatch(conn: ConnId, bound: Option<PeerId>, ev: Event, now: int, ice: Json)
      returns (bound': Option<PeerId>, out: seq<Outbound>)
      requires Valid()
      modifies this, rooms.Values
      ensures Valid()
      ensures Dispatched(Abs(), bound', out) == DispatchStep(old(Abs()), conn, bound, ev, now, ice)
    {
      match ev {
        case Closed =>
          bound' := bound;
          out := CloseConnection(conn, bound, now);
        case Received(kind, m) =>
          bound', out := Route(conn, bound, kind, m, now, ice);
      }
    }

    /** The cleanup after the socket of `conn` closes. */
    method CloseConnection(conn: ConnId, bound: Option<PeerId>, now: int) returns (out: seq<Outbound>)
      requires Valid()
      modifies this, rooms.Values
      ensures Valid()
      ensures Dispatched(Abs(), bound, out) == CloseStep(old(Abs()), conn, bound, now)
    {
      out := [];
      if bound.Some? {
        out := HandleDisconnect(bound.value, now);
      }
      HandleUnsubscribeLobbies(conn);
    }

    /** A message of type `kind` received on `conn`. */
    method Route(conn: ConnId, bound: Option<PeerId>, kind: string, m: Fields, now: int, ice: Json)
      returns (bound': Option<PeerId>, out: seq<Outbound>)
      requires Valid()
      modifies this, rooms.Values
      ensures Valid()
      ensures Dispatched(Abs(), bound', out) == RouteStep(old(Abs()), conn, bound, kind, m, now, ice)
    {
      bound' := bound;
      if kind == "join" {
        var newPeer;
        newPeer, out := HandleJoin(conn, m, now, ice);
        if newPeer.Some? {
          bound' := newPeer;
        }
      } else if IsLobbyKind(kind) {
        out := RouteLobby(conn, bound, kind, m);
      } else {
        out := RouteBound(conn, bound, kind, m, now);
      }
    }

    /** The lobby message types, which need no joined peer. */
    method RouteLobby(conn: ConnId, bound: Option<PeerId>, kind: string, m: Fields) returns (out: seq<Outbound>)
      requires Valid()
      requires IsLobbyKind(kind)
      modifies this`lobbySubscriptions
      ensures Valid()
      ensures Dispatched(Abs(), bound, out) == LobbyRouteStep(old(Abs()), conn, bound, kind, m)
    {
      if kind == "list_lobbies" {
        out := HandleListLobbies(conn, m);
      } else if kind == "subscribe_lobbies" {
        out := HandleSubscribeLobbies(conn, m);
      } else {
        HandleUnsubscribeLobbies(conn);
        out := [];
      }
    }

    /** The message types that need a joined peer. */
    method RouteBound(conn: ConnId, bound: Option<PeerId>, kind: string, m: Fields, now: int) returns (out: seq<Outbound>)
      requires Valid()
      modifies rooms.Values
      ensures Valid()
      ensures Dispatched(Abs(), bound, out) == BoundRouteStep(old(Abs()), conn, bound, kind, m, now)
    {
      if bound.None? {
        out := Reply(conn, Error("join_required"));
      } else if kind == "signal" {
        out := HandleSignal(bound.value, m, now);
      } else if kind == "peer_connected" {
        out := HandlePeerConnected(bound.value, now);
      } else {
        out := Reply(conn, Error("unknown_message_type:" + kind));
      }
    }

    /** The ids of the rooms idle for more than `StaleAfterSeconds` at time
        `now`, in dict order. */
    method StaleRoomIds(now: int) returns (ids: seq<RoomId>)
      ensures ids == StaleIds(roomOrder, Abs().rooms, now)
    {
      ghost var view := Abs().rooms;
      ids := [];
      var i := 0;
      while i < |roomOrder|
        invariant 0 <= i <= |roomOrder|
        invariant ids == StaleIds(roomOrder[..i], view, now)
      {
        var k := roomOrder[i];
        StaleIdsSnoc(roomOrder, i, view, now);
        assert k in rooms <==> k in view;
        assert k in rooms ==> rooms[k].lastActivity == view[k].lastActivity;
        if k in rooms && now - rooms[k].lastActivity > StaleAfterSeconds {
          ids := ids + [k];
        }
        i := i + 1;
      }
      assert roomOrder[..|roomOrder|] == roomOrder;
    }

    /** One pass of `prune_stale_rooms` at time `now`: pops every stale room
        and the sessions of its members, then sends each room's lobby
        deltas. */
    method PruneStaleRooms(now: int) returns (out: seq<Outbound>)
      requires Valid() && NoDup(roomOrder)
      modifies this`rooms, this`roomOrder, this`peers
      ensures Valid() && rooms.Values <= old(rooms.Values)
      ensures Step(Abs(), out) == PruneStep(old(Abs()), now)
    {
      var stale := StaleRoomIds(now);
      StaleIdsNoDup(roomOrder, Abs().rooms, now);
      PopRooms(stale);
      out := NotifyEach(stale);
    }

    /** The popping loop of `prune_stale_rooms`: each room of `ids` leaves
        the dict, and so do the sessions of its members. */
    method PopRooms(ids: seq<RoomId>)
      requires Valid() && NoDup(ids) && forall k :: k in ids ==> k in rooms
      modifies this`rooms, this`roomOrder, this`peers
      ensures Valid() && rooms.Values <= old(rooms.Values)
      ensures Abs() == PrunedState(old(Abs()), ids)
    {
      ghost var s0 := Abs();
      assert forall k :: k in ids ==> k in s0.rooms;
      WithoutNothing(roomOrder);
      assert s0.rooms - {} == s0.rooms;
      ghost var gone: set<RoomId> := {};
      var i := 0;
      while i < |ids|
        invariant 0 <= i <= |ids|
        invariant Valid() && rooms.Values <= old(rooms.Values)
        invariant forall k :: k in gone <==> k in ids[..i]
        invariant Abs() == PoppedPrefix(s0, ids, i, gone)
      {
        var id := ids[i];
        assert id in s0.rooms by {
          assert id in ids;
        }
        PopStep(s0, ids, i, gone);
        PopRoom(id);
        gone := gone + {id};
        i := i + 1;
      }
      assert ids[..|ids|] == ids;
      assert gone == set k | k in ids;
    }

    /** `registry.rooms.pop(room_id)` followed by popping the session of
        every member. */
    method PopRoom(id: RoomId)
      requires Valid() && id in rooms
      modifies this`rooms, this`roomOrder, this`peers
      ensures Valid() && rooms.Values <= old(rooms.Values)
      ensures var s := old(Abs());
              Abs() == s.(rooms := s.rooms - {id}, roomOrder := Without(s.roomOrder, {id}),
                          peers := s.peers - s.rooms[id].peerIds)
    {
      var room := rooms[id];
      rooms := rooms - {id};
      peers := peers - room.peerIds;
      roomOrder := Without(roomOrder, {id});
    }

    /** The notifying loop of `prune_stale_rooms`, after the lock is let go. */
    method NotifyEach(ids: seq<RoomId>) returns (out: seq<Outbound>)
      requires Valid()
      ensures out == RemovalDeltas(Abs(), ids)
    {
      out := [];
      var i := 0;
      while i < |ids|
        invariant 0 <= i <= |ids|
        invariant out == RemovalDeltas(Abs(), ids[..i])
      {
        out := NotifyNext(ids, i, out);
        i := i + 1;
      }
      assert ids[..|ids|] == ids;
    }

    /** One round of the notifying loop: the deltas for `ids[i]` after
        those for the rooms before it. */
    method NotifyNext(ids: seq<RoomId>, i: nat, sent: seq<Outbound>) returns (out: seq<Outbound>)
      requires Valid() && i < |ids| && sent == RemovalDeltas(Abs(), ids[..i])
      ensures out == RemovalDeltas(Abs(), ids[..i + 1])
    {
      var d := NotifyLobbyRoomChanged(ids[i]);
      RemovalDeltasSnoc(Abs(), ids, i);
      out := sent + d;
    }

    /** `handle_join` on connection `conn`; returns the peer id handed out
        on success. */
    method HandleJoin(conn: ConnId, m: Fields, now: int, ice: Json) returns (newPeer: Option<PeerId>, out: seq<Outbound>)
      requires Valid()
      modifies this, rooms.Values
      ensures Valid() && forall r :: r in rooms.Values ==> r in old(rooms.Values) || fresh(r)
      ensures Joined(Abs(), newPeer, out) == JoinStep(old(Abs()), conn, m, now, ice)
    {
      ghost var s0 := Abs();
      var roomId := Strip(m.roomId);
      JoinAllocates(s0, conn, m, roomId, now, ice);
      if roomId == [] {
        return None, Reply(conn, Error("room_id_required"));
      }
      newPeer, out := JoinAllocated(s0, conn, m, roomId, now, ice);
    }

    /** `handle_join` past a non-blank room id: hand out a peer id, then
        look at the room. */
    method JoinAllocated(ghost s: RegistryState, conn: ConnId, m: Fields, roomId: RoomId, now: int, ice: Json)
      returns (newPeer: Option<PeerId>, out: seq<Outbound>)
      requires Valid() && s == Abs()
      modifies this, rooms.Values
      ensures Valid() && forall r :: r in rooms.Values ==> r in old(rooms.Values) || fresh(r)
      ensures Joined(Abs(), newPeer, out) == JoinRoom(s.(nextPeerId := s.nextPeerId + 1), conn, roomId, s.nextPeerId, m, now, ice)
    {
      var pid := AllocatePeerId();
      newPeer, out := JoinRoomAs(conn, m, roomId, pid, now, ice);
    }

    /** `handle_join` once the peer id `pid` has been handed out. */
    method JoinRoomAs(conn: ConnId, m: Fields, roomId: RoomId, pid: PeerId, now: int, ice: Json)
      returns (newPeer: Option<PeerId>, out: seq<Outbound>)
      requires Valid()
      modifies this, rooms.Values
      ensures Valid() && forall r :: r in rooms.Values ==> r in old(rooms.Values) || fresh(r)
      ensures Joined(Abs(), newPeer, out) == JoinRoom(old(Abs()), conn, roomId, pid, m, now, ice)
    {
      if roomId !in rooms && !m.isHostIntent {
        return None, Reply(conn, Error("room_not_found"));
      }
      if roomId in rooms && ParseTopology(m.topology) != rooms[roomId].topology {
        assert rooms[roomId].View() == Abs().rooms[roomId];
        return None, Reply(conn, Error("topology_mismatch"));
      }
      ghost var s1 := Abs();
      assert roomId in s1.rooms ==> ParseTopology(m.topology) == s1.rooms[roomId].topology;
      var room := OpenRoom(roomId, pid, m, now);
      ghost var found := Abs();
      JoinReachesAdmit(s1, found, conn, roomId, pid, m, now, ice);
      newPeer, out := Enter(room, conn, pid, m.isHostIntent, now, ice);
    }

    /** The part of `handle_join` after the room is found or created. */
    method Enter(room: Room, conn: ConnId, pid: PeerId, hostIntent: bool, now: int, ice: Json)
      returns (newPeer: Option<PeerId>, out: seq<Outbound>)
      requires Valid() && room.roomId in rooms && rooms[room.roomId] == room
      modifies this`peers, rooms.Values
      ensures Valid()
      ensures Joined(Abs(), newPeer, out) == Admit(old(Abs()), conn, room.roomId, pid, hostIntent, now, ice)
    {
      ghost var s0 := Abs();
      assert room.View() == s0.rooms[room.roomId];
      if room.isSealed || room.Full() {
        return None, Reply(conn, Error("room_unavailable"));
      }
      if hostIntent && room.hostId != pid {
        return None, Reply(conn, Error("host_already_exists"));
      }
      AdmitPeer(room, conn, pid, now);
      ghost var s2 := Abs();
      assert room.View() == s2.rooms[room.roomId];
      AdmitSteps(s0, s2, conn, room.roomId, pid, hostIntent, now, ice);
      out := JoinMessages(room, conn, pid, ice);
      if room.Full() {
        var ready := MaybeEmitMatchReady(room.roomId, now);
        out := out + ready;
      } else {
        assert out == out + [];
      }
      newPeer := Some(pid);
    }

    /** What a successful `handle_join` sends before any `match_ready`: the
        lobby deltas, `id_assigned` to the caller, and `peer_joined` to the
        other members under `mesh` or to the host under
        `server_authoritative`. */
    method JoinMessages(room: Room, conn: ConnId, pid: PeerId, ice: Json) returns (out: seq<Outbound>)
      requires Valid() && room.roomId in rooms && rooms[room.roomId] == room
      ensures out == JoinNotices(Abs(), conn, room.roomId, pid, ice)
    {
      var existing := room.peerIds - {pid};
      out := NotifyLobbyRoomChanged(room.roomId);
      out := out + Reply(conn, IdAssigned(pid, room.hostId, room.topology, room.capacity, ice));
      var notifyIds: set<PeerId> := {};
      if room.topology == Mesh {
        notifyIds := existing;
      } else if room.hostId in existing {
        notifyIds := {room.hostId};
      }
      var to := SessionRecipients(notifyIds);
      out := out + Fanout(to, PeerJoined(pid));
      assert room.View() == Abs().rooms[room.roomId];
    }

    /** The room `handle_join` joins: the stored one, or a new one created
        for host `pid` and appended to the dict. */
    method OpenRoom(roomId: RoomId, pid: PeerId, m: Fields, now: int) returns (room: Room)
      requires Valid()
      requires roomId in rooms || m.isHostIntent
      modifies this`rooms, this`roomOrder
      ensures Valid() && forall r :: r in rooms.Values ==> r in old(rooms.Values) || fresh(r)
      ensures roomId in rooms && room == rooms[roomId]
      ensures Abs() == WithRoom(old(Abs()), roomId, pid, m, now)
    {
      if roomId in rooms {
        room := rooms[roomId];
      } else {
        room := new Room(roomId, pid, ParseTopology(m.topology), EffectiveCapacity(m.capacity), JoinTags(m.tags), now);
        rooms := rooms[roomId := room];
        roomOrder := roomOrder + [roomId];
        assert Abs().rooms == old(Abs()).rooms[roomId := NewRoom(roomId, pid, m, now)];
      }
    }

    /** The locked part of a successful `handle_join`: add `pid` to `room`,
        seal it when full, and register the session. */
    method AdmitPeer(room: Room, conn: ConnId, pid: PeerId, now: int)
      requires Valid() && room.roomId in rooms && rooms[room.roomId] == room
      modifies this`peers, room
      ensures Valid()
      ensures Abs() == Admitted(old(Abs()), conn, room.roomId, pid, now)
    {
      GrowRoom(room, pid, now);
      peers := peers[pid := PeerSession(pid, conn, room.roomId, now)];
    }

    /** `room.peer_ids.add(pid)`, `update_activity`, and sealing when that
        fills the room. */
    method GrowRoom(room: Room, pid: PeerId, now: int)
      requires Valid() && room.roomId in rooms && rooms[room.roomId] == room
      modifies room
      ensures Valid()
      ensures Abs() == old(Abs()).(rooms := old(Abs()).rooms[room.roomId := Grown(old(Abs()).rooms[room.roomId], pid, now)])
    {
      ghost var s := Abs();
      ghost var grown := Grown(s.rooms[room.roomId], pid, now);
      room.peerIds, room.lastActivity := room.peerIds + {pid}, now;
      if room.Full() {
        room.isSealed := true;
      }
      assert room.View() == grown;
      ghost var rs := s.rooms[room.roomId := grown];
      forall j | j in rooms
        ensures rooms[j].View() == rs[j]
      {
        if j != room.roomId {
          assert rooms[j] in old(rooms.Values);
        }
      }
      assert Abs().rooms == rs;
    }
  }

  /** A join that passes the seal, capacity and host checks of room
      `roomId` continues from the state `s2` after the peer is admitted. */
  lemma AdmitSteps(s: RegistryState, s2: RegistryState, conn: ConnId, roomId: RoomId, pid: PeerId,
                   hostIntent: bool, now: int, ice: Json)
    requires roomId in s.rooms && !s.rooms[roomId].isSealed && !IsFull(s.rooms[roomId])
    requires !(hostIntent && s.rooms[roomId].hostId != pid)
    requires s2 == Admitted(s, conn, roomId, pid, now)
    ensures Admit(s, conn, roomId, pid, hostIntent, now, ice)
            == var ready := if IsFull(s2.rooms[roomId]) then MatchReadyStep(s2, roomId, now) else Step(s2, []);
               Joined(ready.state, Some(pid), JoinNotices(s2, conn, roomId, pid, ice) + ready.out)
  {
  }

  /** `handle_join` refuses a blank room id, and past a non-blank one hands
      out the next peer id. */
  lemma JoinAllocates(s: RegistryState, conn: ConnId, m: Fields, roomId: RoomId, now: int, ice: Json)
    requires roomId == Strip(m.roomId)
    ensures roomId == [] ==> JoinStep(s, conn, m, now, ice) == Joined(s, None, Reply(conn, Error("room_id_required")))
    ensures roomId != [] ==>
              JoinStep(s, conn, m, now, ice) == JoinRoom(s.(nextPeerId := s.nextPeerId + 1), conn, roomId, s.nextPeerId, m, now, ice)
  {
  }

  /** `handle_disconnect`'s locked part as its three writes: the session
      popped, the peer taken out of its room, and the room dropped or
      unsealed. */
  lemma DetachSteps(s: RegistryState, s1: RegistryState, s2: RegistryState, s3: RegistryState, pid: PeerId, now: int)
    requires pid in s.peers && s.peers[pid].roomId in s.rooms
    requires s1 == s.(peers := s.peers - {pid})
    requires var k := s.peers[pid].roomId;
             s2 == s1.(rooms := s1.rooms[k := Left(s1.rooms[k], pid, now)])
    requires var k := s.peers[pid].roomId;
             if pid == s2.rooms[k].hostId || |s2.rooms[k].peerIds| == 0
             then s3 == s2.(rooms := s2.rooms - {k}, roomOrder := Without(s2.roomOrder, {k}))
             else s3 == s2.(rooms := s2.rooms[k := s2.rooms[k].(isSealed := false)])
    ensures s3 == Detached(s, pid, now)
  {
    var k := s.peers[pid].roomId;
    assert s2.rooms - {k} == s.rooms - {k};
  }

  /** `handle_disconnect` in terms of the state `after` the peer is detached. */
  lemma DisconnectShape(s: RegistryState, after: RegistryState, pid: PeerId, now: int)
    requires pid in s.peers && after == Detached(s, pid, now)
    ensures var k := s.peers[pid].roomId;
            DisconnectStep(s, pid, now)
            == if k !in s.rooms then Step(after, [])
               else Step(after, LeaveNotice(s.rooms[k], after.peers, pid) + LobbyDeltas(after, k))
  {
  }

  /** Once the room exists or is to be hosted, and the topology agrees,
      `handle_join` continues with that room present. */
  lemma JoinReachesAdmit(s1: RegistryState, found: RegistryState, conn: ConnId, roomId: RoomId, pid: PeerId,
                         m: Fields, now: int, ice: Json)
    requires roomId in s1.rooms || m.isHostIntent
    requires roomId in s1.rooms ==> ParseTopology(m.topology) == s1.rooms[roomId].topology
    requires found == WithRoom(s1, roomId, pid, m, now)
    ensures JoinRoom(s1, conn, roomId, pid, m, now, ice) == Admit(found, conn, roomId, pid, m.isHostIntent, now, ice)
  {
  }
}
