/** The room registry as a state machine: one function per handler of the
    signaling server, each taking the registry state before the handler
    runs (under the registry lock) to the state after it and the messages
    it sends. */
module Rooms {
  import opened Protocol
  import opened Text
  import opened Lobbies

  /** `stale_after_seconds` of the prune sweep. */
  const StaleAfterSeconds: int := 60

  /** `Registry.__init__`. */
  function Init(): RegistryState
  {
    RegistryState(map[], [], map[], map[], 1, 1)
  }

  /** Only the exact string selects `server_authoritative`. */
  function ParseTopology(s: string): (t: Topology)
    ensures t == ServerAuthoritative <==> s == "server_authoritative"
  {
    if s == "server_authoritative" then ServerAuthoritative else Mesh
  }

  /** `max(2, capacity)`. */
  function EffectiveCapacity(requested: int): (c: int)
    ensures c >= 2 && c >= requested
    ensures c == 2 || c == requested
  {
    if requested < 2 then 2 else requested
  }

  function JoinTags(raw: Option<seq<string>>): seq<string>
  {
    if raw.Some? then raw.value else []
  }

  /** The websockets of those of `ids` that still have a session. */
  function SessionTargets(peers: map<PeerId, PeerSession>, ids: set<PeerId>): set<Recipient>
  {
    set p | p in ids && p in peers :: Peer(p)
  }

  /** `broadcast_room`: every member with a session, except `exclude`. */
  function BroadcastTargets(peers: map<PeerId, PeerSession>, members: set<PeerId>, exclude: Option<PeerId>): set<Recipient>
  {
    SessionTargets(peers, set p | p in members && exclude != Some(p))
  }

  /** The values of `rooms` in dict order (`list(registry.rooms.values())`). */
  function RoomsAlong(order: seq<RoomId>, rooms: map<RoomId, RoomState>): seq<RoomState>
  {
    if order == [] then []
    else (if order[0] in rooms then [rooms[order[0]]] else []) + RoomsAlong(order[1..], rooms)
  }

  function LobbySnapshotOf(s: RegistryState, f: set<string>): seq<Lobby>
  {
    BuildLobbySnapshot(RoomsAlong(s.roomOrder, s.rooms), f)
  }

  /** `order` without the keys in `gone`, otherwise in the same order. */
  function Without(order: seq<RoomId>, gone: set<RoomId>): (r: seq<RoomId>)
    ensures forall k :: k in r <==> k in order && k !in gone
    ensures |r| <= |order|
  {
    if order == [] then []
    else (if order[0] in gone then [] else [order[0]]) + Without(order[1..], gone)
  }

  function Touch(s: RegistryState, roomId: RoomId, now: int): RegistryState
    requires roomId in s.rooms
  {
    s.(rooms := s.rooms[roomId := s.rooms[roomId].(lastActivity := now)])
  }

  // ---------------------------------------------------------------- join

  datatype Joined = Joined(state: RegistryState, newPeer: Option<PeerId>, out: seq<Outbound>)

  /** The room `handle_join` creates for a host. */
  function NewRoom(roomId: RoomId, hostId: PeerId, m: Fields, now: int): RoomState
  {
    RoomState(roomId, hostId, ParseTopology(m.topology), EffectiveCapacity(m.capacity),
              false, {}, {}, JoinTags(m.tags), now)
  }

  /** `handle_join` on connection `conn`: a blank room id is refused before
      a peer id is handed out. */
  function JoinStep(s: RegistryState, conn: ConnId, m: Fields, now: int, ice: Json): Joined
  {
    var roomId := Strip(m.roomId);
    if roomId == [] then Joined(s, None, Reply(conn, Error("room_id_required")))
    else JoinRoom(s.(nextPeerId := s.nextPeerId + 1), conn, roomId, s.nextPeerId, m, now, ice)
  }

  /** The rest of `handle_join`, once peer id `pid` has been handed out and
      the registry is `s1`. */
  function JoinRoom(s1: RegistryState, conn: ConnId, roomId: RoomId, pid: PeerId, m: Fields, now: int, ice: Json): Joined
  {
    if roomId !in s1.rooms && !m.isHostIntent then Joined(s1, None, Reply(conn, Error("room_not_found")))
    else if roomId in s1.rooms && ParseTopology(m.topology) != s1.rooms[roomId].topology then
      Joined(s1, None, Reply(conn, Error("topology_mismatch")))
    else Admit(WithRoom(s1, roomId, pid, m, now), conn, roomId, pid, m.isHostIntent, now, ice)
  }

  /** The registry with room `roomId` present: unchanged when it exists,
      otherwise with a room created for host `pid` at the end of the order. */
  function WithRoom(s: RegistryState, roomId: RoomId, pid: PeerId, m: Fields, now: int): (s': RegistryState)
    ensures roomId in s'.rooms
  {
    if roomId in s.rooms then s
    else s.(rooms := s.rooms[roomId := NewRoom(roomId, pid, m, now)], roomOrder := s.roomOrder + [roomId])
  }

  /** The part of `handle_join` after the room is found or created. */
  function Admit(s: RegistryState, conn: ConnId, roomId: RoomId, pid: PeerId, hostIntent: bool, now: int, ice: Json): Joined
    requires roomId in s.rooms
  {
    var room := s.rooms[roomId];
    if room.isSealed || IsFull(room) then Joined(s, None, Reply(conn, Error("room_unavailable")))
    else if hostIntent && room.hostId != pid then Joined(s, None, Reply(conn, Error("host_already_exists")))
    else
      var s2 := Admitted(s, conn, roomId, pid, now);
      var ready := if IsFull(s2.rooms[roomId]) then MatchReadyStep(s2, roomId, now) else Step(s2, []);
      Joined(ready.state, Some(pid), JoinNotices(s2, conn, roomId, pid, ice) + ready.out)
  }

  /** Room `roomId` with `pid` added, sealed when that fills it. */
  function Grown(room: RoomState, pid: PeerId, now: int): RoomState
  {
    var grown := room.(peerIds := room.peerIds + {pid}, lastActivity := now);
    if IsFull(grown) then grown.(isSealed := true) else grown
  }

  /** The registry after `pid` is admitted to room `roomId` from `conn`. */
  function Admitted(s: RegistryState, conn: ConnId, roomId: RoomId, pid: PeerId, now: int): (s2: RegistryState)
    requires roomId in s.rooms
    ensures roomId in s2.rooms
  {
    s.(rooms := s.rooms[roomId := Grown(s.rooms[roomId], pid, now)],
       peers := s.peers[pid := PeerSession(pid, conn, roomId, now)])
  }

  /** Who hears `peer_joined(pid)`: the other members under `mesh`, only the
      host (when it is another member) under `server_authoritative`. */
  function JoinNotified(room: RoomState, pid: PeerId): set<PeerId>
  {
    var existing := room.peerIds - {pid};
    if room.topology == Mesh then existing
    else if room.hostId in existing then {room.hostId} else {}
  }

  /** The messages of a successful join before any `match_ready`: lobby
      deltas, `id_assigned` to the caller, `peer_joined` to those notified. */
  function JoinNotices(s2: RegistryState, conn: ConnId, roomId: RoomId, pid: PeerId, ice: Json): seq<Outbound>
    requires roomId in s2.rooms
  {
    var joined := s2.rooms[roomId];
    LobbyDeltas(s2, roomId)
    + Reply(conn, IdAssigned(pid, joined.hostId, joined.topology, joined.capacity, ice))
    + Fanout(SessionTargets(s2.peers, JoinNotified(joined, pid)), PeerJoined(pid))
  }

  // ------------------------------------------------- acks and match_ready

  /** `maybe_emit_match_ready`. */
  function MatchReadyStep(s: RegistryState, roomId: RoomId, now: int): Step
  {
    if roomId !in s.rooms then Step(s, [])
    else
      var room := s.rooms[roomId];
      if !IsFull(room) then Step(s, [])
      else if |room.connectedAck| < |room.peerIds| then Step(s, [])
      else
        var s' := Touch(s, roomId, now);
        Step(s', Fanout(BroadcastTargets(s'.peers, room.peerIds, None), MatchReady))
  }

  /** `handle_peer_connected`, with the ack restricted to members of the
      room (see the finding in AckFinding for the code as written). */
  function PeerConnectedStep(s: RegistryState, pid: PeerId, now: int): Step
  {
    if pid !in s.peers then Step(s, [])
    else
      var roomId := s.peers[pid].roomId;
      if roomId !in s.rooms then Step(s, [])
      else
        var room := s.rooms[roomId];
        var acked := if pid in room.peerIds then room.connectedAck + {pid} else room.connectedAck;
        var s' := s.(rooms := s.rooms[roomId := room.(connectedAck := acked, lastActivity := now)]);
        MatchReadyStep(s', roomId, now)
  }

  // -------------------------------------------------------------- signal

  /** `handle_signal` from the bound peer `from`. */
  function SignalStep(s: RegistryState, from: PeerId, m: Fields, now: int): Step
  {
    if m.targetId == 0 then
      Step(s, if from in s.peers then [Outbound({Peer(from)}, Error("target_id_required"))] else [])
    else if from !in s.peers || m.targetId !in s.peers then Step(s, [])
    else
      var source := s.peers[from];
      var target := s.peers[m.targetId];
      if source.roomId != target.roomId then
        Step(s, [Outbound({Peer(from)}, Error("cross_room_signal_blocked"))])
      else if source.roomId !in s.rooms then Step(s, [])
      else Step(Touch(s, source.roomId, now), [Outbound({Peer(m.targetId)}, Signal(from, m.sdp, m.ice))])
  }

  // ---------------------------------------------------------- disconnect

  /** `handle_disconnect`. */
  function DisconnectStep(s: RegistryState, pid: PeerId, now: int): Step
  {
    if pid !in s.peers then Step(s, [])
    else
      var roomId := s.peers[pid].roomId;
      var s2 := Detached(s, pid, now);
      if roomId !in s.rooms then Step(s2, [])
      else Step(s2, LeaveNotice(s.rooms[roomId], s2.peers, pid) + LobbyDeltas(s2, roomId))
  }

  /** The room after `pid` leaves it: without its membership and ack, and
      touched. */
  function Left(room: RoomState, pid: PeerId, now: int): RoomState
  {
    room.(peerIds := room.peerIds - {pid}, connectedAck := room.connectedAck - {pid}, lastActivity := now)
  }

  /** The registry after `pid` disconnects: its session is gone, and its
      room is dropped when the host left or nobody remains, and otherwise
      unsealed. */
  function Detached(s: RegistryState, pid: PeerId, now: int): RegistryState
    requires pid in s.peers
  {
    var roomId := s.peers[pid].roomId;
    var s1 := s.(peers := s.peers - {pid});
    if roomId !in s.rooms then s1
    else
      var left := Left(s.rooms[roomId], pid, now);
      if pid == left.hostId || left.peerIds == {}
      then s1.(rooms := s1.rooms - {roomId}, roomOrder := Without(s1.roomOrder, {roomId}))
      else s1.(rooms := s1.rooms[roomId := left.(isSealed := false)])
  }

  /** What the members left behind hear: `room_closed` when the host left,
      `peer_left` when others remain, nothing when the room is empty. */
  function LeaveNotice(room: RoomState, peers: map<PeerId, PeerSession>, pid: PeerId): seq<Outbound>
  {
    var left := room.peerIds - {pid};
    if pid == room.hostId then Fanout(BroadcastTargets(peers, left, None), RoomClosed)
    else if left != {} then Fanout(BroadcastTargets(peers, left, None), PeerLeft(pid))
    else []
  }

  // --------------------------------------------------------------- prune

  predicate IsStale(room: RoomState, now: int)
  {
    now - room.lastActivity > StaleAfterSeconds
  }

  /** The stale room ids in dict order. */
  function StaleIds(order: seq<RoomId>, rooms: map<RoomId, RoomState>, now: int): (ids: seq<RoomId>)
    ensures forall k :: k in ids <==> k in order && k in rooms && IsStale(rooms[k], now)
  {
    if order == [] then []
    else (if order[0] in rooms && IsStale(rooms[order[0]], now) then [order[0]] else [])
         + StaleIds(order[1..], rooms, now)
  }

  /** The members of the rooms `ids`. */
  function MembersOf(rooms: map<RoomId, RoomState>, ids: seq<RoomId>): (ps: set<PeerId>)
    ensures forall p :: p in ps <==> exists k :: k in ids && k in rooms && p in rooms[k].peerIds
  {
    if ids == [] then {}
    else
      var last := ids[|ids| - 1];
      var rest := MembersOf(rooms, ids[..|ids| - 1]);
      assert forall k :: k in ids <==> k in ids[..|ids| - 1] || k == last;
      rest + (if last in rooms then rooms[last].peerIds else {})
  }

  /** The messages of the `notify_lobby_room_changed` calls for `ids`. */
  function RemovalDeltas(s: RegistryState, ids: seq<RoomId>): seq<Outbound>
  {
    if ids == [] then []
    else RemovalDeltas(s, ids[..|ids| - 1]) + LobbyDeltas(s, ids[|ids| - 1])
  }

  function PrunedState(s: RegistryState, stale: seq<RoomId>): RegistryState
  {
    var gone := set k | k in stale;
    s.(rooms := s.rooms - gone, roomOrder := Without(s.roomOrder, gone),
       peers := s.peers - MembersOf(s.rooms, stale))
  }

  /** One pass of the `prune_stale_rooms` loop at time `now`. */
  function PruneStep(s: RegistryState, now: int): Step
  {
    var stale := StaleIds(s.roomOrder, s.rooms, now);
    var s' := PrunedState(s, stale);
    Step(s', RemovalDeltas(s', stale))
  }

  // --------------------------------------------------------------- lobby

  function ListLobbiesStep(s: RegistryState, conn: ConnId, m: Fields): seq<Outbound>
  {
    var lobbies := LobbySnapshotOf(s, NormalizeFilterTags(m.filterTags));
    Reply(conn, LobbyList(lobbies)) + Reply(conn, LobbySnapshot(lobbies))
  }

  function SubscribeStep(s: RegistryState, conn: ConnId, m: Fields): Step
  {
    var f := NormalizeFilterTags(m.filterTags);
    var s' := s.(subscriptions := s.subscriptions[conn := LobbySubscription(conn, f)]);
    Step(s', Reply(conn, LobbySnapshot(LobbySnapshotOf(s', f))))
  }

  function UnsubscribeStep(s: RegistryState, conn: ConnId): RegistryState
  {
    s.(subscriptions := s.subscriptions - {conn})
  }

  // ------------------------------------------------------------ dispatch

  /** `allocate_connection_id`, run when a websocket is accepted. */
  function AcceptStep(s: RegistryState): (RegistryState, ConnId)
  {
    (s.(nextConnectionId := s.nextConnectionId + 1), s.nextConnectionId)
  }

  datatype Dispatched = Dispatched(state: RegistryState, bound: Option<PeerId>, out: seq<Outbound>)

  /** One turn of the loop in `websocket_endpoint` for connection `conn`,
      whose bound peer id is `bound`. */
  function DispatchStep(s: RegistryState, conn: ConnId, bound: Option<PeerId>, ev: Event, now: int, ice: Json): Dispatched
  {
    match ev
    case Closed => CloseStep(s, conn, bound, now)
    case Received(kind, m) => RouteStep(s, conn, bound, kind, m, now, ice)
  }

  /** The `except` arms after the socket closes: `handle_disconnect` for a
      bound peer, then `handle_unsubscribe_lobbies`. */
  function CloseStep(s: RegistryState, conn: ConnId, bound: Option<PeerId>, now: int): Dispatched
  {
    var d := if bound.Some? then DisconnectStep(s, bound.value, now) else Step(s, []);
    Dispatched(UnsubscribeStep(d.state, conn), bound, d.out)
  }

  predicate IsLobbyKind(kind: string)
  {
    kind == "list_lobbies" || kind == "subscribe_lobbies" || kind == "unsubscribe_lobbies"
  }

  /** A received message of type `kind`: `join`, then the lobby types, which
      need no joined peer, then the types that do. */
  function RouteStep(s: RegistryState, conn: ConnId, bound: Option<PeerId>, kind: string, m: Fields, now: int, ice: Json): Dispatched
  {
    if kind == "join" then
      var j := JoinStep(s, conn, m, now, ice);
      Dispatched(j.state, if j.newPeer.Some? then j.newPeer else bound, j.out)
    else if IsLobbyKind(kind) then LobbyRouteStep(s, conn, bound, kind, m)
    else BoundRouteStep(s, conn, bound, kind, m, now)
  }

  function LobbyRouteStep(s: RegistryState, conn: ConnId, bound: Option<PeerId>, kind: string, m: Fields): Dispatched
  {
    if kind == "list_lobbies" then Dispatched(s, bound, ListLobbiesStep(s, conn, m))
    else if kind == "subscribe_lobbies" then
      var t := SubscribeStep(s, conn, m);
      Dispatched(t.state, bound, t.out)
    else Dispatched(UnsubscribeStep(s, conn), bound, [])
  }

  function BoundRouteStep(s: RegistryState, conn: ConnId, bound: Option<PeerId>, kind: string, m: Fields, now: int): Dispatched
  {
    if bound.None? then Dispatched(s, bound, Reply(conn, Error("join_required")))
    else if kind == "signal" then
      var t := SignalStep(s, bound.value, m, now);
      Dispatched(t.state, bound, t.out)
    else if kind == "peer_connected" then
      var t := PeerConnectedStep(s, bound.value, now);
      Dispatched(t.state, bound, t.out)
    else Dispatched(s, bound, Reply(conn, Error("unknown_message_type:" + kind)))
  }

  // ----------------------------------------------------------- invariant

  ghost predicate NoDup(xs: seq<RoomId>)
  {
    forall i, j :: 0 <= i < j < |xs| ==> xs[i] != xs[j]
  }

  /** What holds of every room the registry stores under key `k`. */
  ghost predicate RoomOk(s: RegistryState, k: RoomId, r: RoomState)
  {
    && r.roomId == k
    && k != []
    && r.capacity >= 2
    && |r.peerIds| <= r.capacity
    && (r.isSealed ==> |r.peerIds| == r.capacity)
    && r.hostId in r.peerIds
    && r.connectedAck <= r.peerIds
    && (forall p :: p in r.peerIds ==> p in s.peers && s.peers[p].roomId == k)
  }

  ghost predicate Inv(s: RegistryState)
  {
    && s.nextPeerId >= 1
    && s.nextConnectionId >= 1
    && NoDup(s.roomOrder)
    && (forall k :: k in s.roomOrder <==> k in s.rooms)
    && (forall k :: k in s.rooms ==> RoomOk(s, k, s.rooms[k]))
    && (forall p :: p in s.peers ==>
          s.peers[p].peerId == p && 1 <= p < s.nextPeerId && 1 <= s.peers[p].conn < s.nextConnectionId)
    && (forall c :: c in s.subscriptions ==> s.subscriptions[c].connectionId == c && 1 <= c < s.nextConnectionId)
  }
}
