/** What `handle_join` guarantees: its error cases, the room and session a
    successful join creates, who hears about the joiner, and the registry
    invariant. */
module JoinProofs {
  import opened Protocol
  import opened Text
  import opened Lobbies
  import opened Rooms
  import opened RoomFacts

  /** A join succeeds exactly when it names a room, and either no such room
      exists and the caller wants to host, or the room exists, has the
      requested topology, is open, and the caller does not want to host. */
  ghost predicate Admissible(s: RegistryState, m: Fields)
  {
    var id := Strip(m.roomId);
    && id != []
    && if id in s.rooms
       then ParseTopology(m.topology) == s.rooms[id].topology
            && !s.rooms[id].isSealed && !IsFull(s.rooms[id]) && !m.isHostIntent
       else m.isHostIntent
  }

  /** The registry a join starts from once the peer id is allocated and the
      room is found or created. */
  function Opened(s: RegistryState, m: Fields, now: int): (b: RegistryState)
    ensures Strip(m.roomId) in b.rooms
  {
    WithRoom(s.(nextPeerId := s.nextPeerId + 1), Strip(m.roomId), s.nextPeerId, m, now)
  }

  /** The registry after a successful join. */
  function AfterJoin(s: RegistryState, conn: ConnId, m: Fields, now: int): (t: RegistryState)
    ensures Strip(m.roomId) in t.rooms
  {
    Admitted(Opened(s, m, now), conn, Strip(m.roomId), s.nextPeerId, now)
  }

  /** A successful join ends in `AfterJoin` with the notices of
      `JoinNotices` and no `match_ready`: the joiner has not acked yet, so
      the acks stay fewer than the members. */
  lemma AdmitShape(s: RegistryState, conn: ConnId, m: Fields, now: int, ice: Json)
    requires Inv(s) && Admissible(s, m)
    ensures JoinStep(s, conn, m, now, ice)
            == Joined(AfterJoin(s, conn, m, now), Some(s.nextPeerId),
                      JoinNotices(AfterJoin(s, conn, m, now), conn, Strip(m.roomId), s.nextPeerId, ice))
  {
    var id := Strip(m.roomId);
    var pid := s.nextPeerId;
    var b := Opened(s, m, now);
    var room := b.rooms[id];
    if id in s.rooms {
      MembersAreOld(s, id);
      assert RoomOk(s, id, s.rooms[id]);
    }
    assert pid !in room.peerIds && room.connectedAck <= room.peerIds;
    assert !room.isSealed && !IsFull(room) && !(m.isHostIntent && room.hostId != pid);
    assert JoinStep(s, conn, m, now, ice) == Admit(b, conn, id, pid, m.isHostIntent, now, ice);
    SubsetNoLarger(room.connectedAck, room.peerIds);
    NoReadyOnAdmit(b, conn, id, pid, m.isHostIntent, now, ice);
  }

  /** Admitting a peer that has not acked to an open room emits no
      `match_ready` and ends in `Admitted`. */
  lemma NoReadyOnAdmit(b: RegistryState, conn: ConnId, id: RoomId, pid: PeerId, hostIntent: bool, now: int, ice: Json)
    requires id in b.rooms
    requires !b.rooms[id].isSealed && !IsFull(b.rooms[id]) && !(hostIntent && b.rooms[id].hostId != pid)
    requires pid !in b.rooms[id].peerIds && |b.rooms[id].connectedAck| <= |b.rooms[id].peerIds|
    ensures Admit(b, conn, id, pid, hostIntent, now, ice)
            == Joined(Admitted(b, conn, id, pid, now), Some(pid), JoinNotices(Admitted(b, conn, id, pid, now), conn, id, pid, ice))
  {
    var s2 := Admitted(b, conn, id, pid, now);
    var joined := s2.rooms[id];
    assert joined == Grown(b.rooms[id], pid, now);
    assert |joined.peerIds| == |b.rooms[id].peerIds| + 1;
    assert |joined.connectedAck| < |joined.peerIds|;
    assert MatchReadyStep(s2, id, now) == Step(s2, []);
    var notices := JoinNotices(s2, conn, id, pid, ice);
    assert notices + [] == notices;
  }

  /** Each failed join sends exactly one error to the caller and leaves the
      rooms and sessions as they were; the peer-id counter advances on every
      failure except a blank room id. */
  lemma JoinFailureCases(s: RegistryState, conn: ConnId, m: Fields, now: int, ice: Json)
    requires Inv(s)
    ensures var r := JoinStep(s, conn, m, now, ice);
            && (r.newPeer.Some? <==> Admissible(s, m))
            && (r.newPeer.None? ==>
                  r.state == s.(nextPeerId := if IsBlank(m.roomId) then s.nextPeerId else s.nextPeerId + 1))
    ensures var r := JoinStep(s, conn, m, now, ice);
            var id := Strip(m.roomId);
            && (IsBlank(m.roomId) ==> r.out == Reply(conn, Error("room_id_required")))
            && (!IsBlank(m.roomId) && id !in s.rooms && !m.isHostIntent ==>
                  r.out == Reply(conn, Error("room_not_found")))
            && (id in s.rooms && ParseTopology(m.topology) != s.rooms[id].topology ==>
                  r.out == Reply(conn, Error("topology_mismatch")))
            && (id in s.rooms && ParseTopology(m.topology) == s.rooms[id].topology
                && (s.rooms[id].isSealed || IsFull(s.rooms[id])) ==>
                  r.out == Reply(conn, Error("room_unavailable")))
            && (id in s.rooms && ParseTopology(m.topology) == s.rooms[id].topology
                && !s.rooms[id].isSealed && !IsFull(s.rooms[id]) && m.isHostIntent ==>
                  r.out == Reply(conn, Error("host_already_exists")))
  {
    StripEmptyIffBlank(m.roomId);
    var id := Strip(m.roomId);
    JoinRefusalIsOneError(s, conn, m, now, ice);
    if id in s.rooms {
      MembersAreOld(s, id);
    }
    if Admissible(s, m) {
      AdmitShape(s, conn, m, now, ice);
    }
  }

  /** A successful join hands out a peer id larger than every id handed out
      before, adds it to the room and registers a session bound to the room;
      a created room takes `max(2, capacity)`, the parsed topology and the
      joiner as host; the room is sealed exactly when it reaches capacity;
      nothing else changes. */
  lemma JoinSuccess(s: RegistryState, conn: ConnId, m: Fields, now: int)
    requires Inv(s) && Admissible(s, m)
    ensures var pid := s.nextPeerId;
            var t := AfterJoin(s, conn, m, now);
            var id := Strip(m.roomId);
            && t.nextPeerId == pid + 1
            && (forall q :: q in s.peers ==> q < pid)
            && t.rooms[id].peerIds == (if id in s.rooms then s.rooms[id].peerIds else {}) + {pid}
            && t.peers == s.peers[pid := PeerSession(pid, conn, id, now)]
            && (id !in s.rooms ==>
                  && t.rooms[id].hostId == pid
                  && t.rooms[id].capacity == EffectiveCapacity(m.capacity)
                  && t.rooms[id].topology == ParseTopology(m.topology)
                  && t.rooms[id].tags == JoinTags(m.tags))
            && (id in s.rooms ==>
                  && t.rooms[id] == s.rooms[id].(peerIds := t.rooms[id].peerIds, isSealed := t.rooms[id].isSealed,
                                                 lastActivity := now))
            && (t.rooms[id].isSealed <==> |t.rooms[id].peerIds| == t.rooms[id].capacity)
            && (forall k :: k != id ==> (k in t.rooms <==> k in s.rooms) && (k in s.rooms ==> t.rooms[k] == s.rooms[k]))
            && t.subscriptions == s.subscriptions
  {
    var id := Strip(m.roomId);
    var pid := s.nextPeerId;
    AfterJoinParts(s, conn, m, now);
    if id in s.rooms {
      MembersAreOld(s, id);
      assert RoomOk(s, id, s.rooms[id]);
      assert |s.rooms[id].peerIds + {pid}| == |s.rooms[id].peerIds| + 1;
    }
  }

  /** The messages of a successful join, recipient by recipient: the lobby
      deltas, `id_assigned` for the caller, and `peer_joined` for each
      notified member with a session. */
  lemma JoinNoticesInbox(s2: RegistryState, conn: ConnId, roomId: RoomId, pid: PeerId, ice: Json, x: Recipient)
    requires roomId in s2.rooms
    ensures var joined := s2.rooms[roomId];
            Inbox(JoinNotices(s2, conn, roomId, pid, ice), x) ==
              Inbox(LobbyDeltas(s2, roomId), x)
              + (if x == Conn(conn)
                 then [IdAssigned(pid, joined.hostId, joined.topology, joined.capacity, ice)] else [])
              + (if x.Peer? && x.peer in JoinNotified(joined, pid) && x.peer in s2.peers
                 then [PeerJoined(pid)] else [])
  {
    var joined := s2.rooms[roomId];
    var a := LobbyDeltas(s2, roomId);
    var b := Reply(conn, IdAssigned(pid, joined.hostId, joined.topology, joined.capacity, ice));
    var c := Fanout(SessionTargets(s2.peers, JoinNotified(joined, pid)), PeerJoined(pid));
    InboxAppend(a + b, c, x);
    InboxAppend(a, b, x);
    InboxReply(conn, IdAssigned(pid, joined.hostId, joined.topology, joined.capacity, ice), x);
    InboxFanout(SessionTargets(s2.peers, JoinNotified(joined, pid)), PeerJoined(pid), x);
  }

  /** `id_assigned` reaches the joiner's connection, after the lobby delta
      when that connection also subscribes, carrying the room's host,
      topology and capacity. */
  lemma JoinerReply(s: RegistryState, conn: ConnId, m: Fields, now: int, ice: Json)
    ensures var t := AfterJoin(s, conn, m, now);
            var room := t.rooms[Strip(m.roomId)];
            Inbox(JoinNotices(t, conn, Strip(m.roomId), s.nextPeerId, ice), Conn(conn)) ==
              (if conn in s.subscriptions
               then [DeltaFor(Some(room), Strip(m.roomId), s.subscriptions[conn].filterTags)] else [])
              + [IdAssigned(s.nextPeerId, room.hostId, room.topology, room.capacity, ice)]
  {
    var id := Strip(m.roomId);
    var t := AfterJoin(s, conn, m, now);
    var room := t.rooms[id];
    var deltas := if conn in s.subscriptions
                  then [DeltaFor(Some(room), id, s.subscriptions[conn].filterTags)] else [];
    var reply := [IdAssigned(s.nextPeerId, room.hostId, room.topology, room.capacity, ice)];
    assert t.subscriptions == s.subscriptions;
    assert Get(t.rooms, id) == Some(room);
    LobbyDeltasPerSubscriber(t, id, Conn(conn));
    assert Inbox(LobbyDeltas(t, id), Conn(conn)) == deltas;
    JoinNoticesInbox(t, conn, id, s.nextPeerId, ice, Conn(conn));
    assert Inbox(JoinNotices(t, conn, id, s.nextPeerId, ice), Conn(conn)) == deltas + reply + [];
    assert deltas + reply + [] == deltas + reply;
  }

  /** The joiner's own session hears nothing of its join. */
  lemma JoinerHearsNothing(s2: RegistryState, conn: ConnId, roomId: RoomId, pid: PeerId, ice: Json)
    requires roomId in s2.rooms
    ensures Inbox(JoinNotices(s2, conn, roomId, pid, ice), Peer(pid)) == []
  {
    var none: seq<Message> := [];
    assert Inbox(LobbyDeltas(s2, roomId), Peer(pid)) == none by {
      LobbyDeltasPerSubscriber(s2, roomId, Peer(pid));
    }
    assert pid !in JoinNotified(s2.rooms[roomId], pid);
    assert none + none + none == none;
    JoinNoticesInbox(s2, conn, roomId, pid, ice, Peer(pid));
  }

  /** Under `mesh` every earlier member hears `peer_joined`; under
      `server_authoritative` only the host does, and only when the host is an
      earlier member. Nobody else, the joiner included, hears it. */
  lemma JoinPeerJoinedFanout(s: RegistryState, conn: ConnId, m: Fields, now: int, ice: Json, q: PeerId)
    requires Inv(s) && Admissible(s, m)
    ensures var id := Strip(m.roomId);
            var t := AfterJoin(s, conn, m, now);
            var before := if id in s.rooms then s.rooms[id].peerIds else {};
            var room := t.rooms[id];
            Inbox(JoinNotices(t, conn, id, s.nextPeerId, ice), Peer(q)) ==
              if q in before && (room.topology == Mesh || q == room.hostId) then [PeerJoined(s.nextPeerId)] else []
  {
    var id := Strip(m.roomId);
    var pid := s.nextPeerId;
    var t := AfterJoin(s, conn, m, now);
    var before := if id in s.rooms then s.rooms[id].peerIds else {};
    var room := t.rooms[id];
    JoinSuccess(s, conn, m, now);
    if id in s.rooms {
      MembersAreOld(s, id);
      assert RoomOk(s, id, s.rooms[id]);
    }
    assert room.peerIds - {pid} == before;
    assert q in before ==> q in t.peers;
    assert q in JoinNotified(room, pid) && q in t.peers <==>
           q in before && (room.topology == Mesh || q == room.hostId);
    var none: seq<Message> := [];
    assert Inbox(LobbyDeltas(t, id), Peer(q)) == none by {
      LobbyDeltasPerSubscriber(t, id, Peer(q));
    }
    JoinNoticesInbox(t, conn, id, pid, ice, Peer(q));
  }

  /** A refused join sends one error, to the caller alone, and changes
      nothing but the peer-id counter, which it advances past a non-blank
      room id. */
  lemma JoinRefusalIsOneError(s: RegistryState, conn: ConnId, m: Fields, now: int, ice: Json)
    ensures var r := JoinStep(s, conn, m, now, ice);
            r.newPeer.None? ==>
              && |r.out| == 1 && r.out[0].to == {Conn(conn)} && r.out[0].msg.Error?
              && r.state == s.(nextPeerId := if Strip(m.roomId) == [] then s.nextPeerId else s.nextPeerId + 1)
  {
    var id := Strip(m.roomId);
    if id != [] {
      var s1 := s.(nextPeerId := s.nextPeerId + 1);
      assert JoinStep(s, conn, m, now, ice) == JoinRoom(s1, conn, id, s.nextPeerId, m, now, ice);
      if (id in s.rooms || m.isHostIntent) && (id !in s.rooms || ParseTopology(m.topology) == s.rooms[id].topology) {
        var b := WithRoom(s1, id, s.nextPeerId, m, now);
        assert JoinRoom(s1, conn, id, s.nextPeerId, m, now, ice) == Admit(b, conn, id, s.nextPeerId, m.isHostIntent, now, ice);
        AdmitRefusal(b, conn, id, s.nextPeerId, m.isHostIntent, now, ice);
      }
    }
  }

  lemma AdmitRefusal(b: RegistryState, conn: ConnId, id: RoomId, pid: PeerId, hostIntent: bool, now: int, ice: Json)
    requires id in b.rooms
    ensures var r := Admit(b, conn, id, pid, hostIntent, now, ice);
            r.newPeer.None? ==> |r.out| == 1 && r.out[0].to == {Conn(conn)} && r.out[0].msg.Error? && r.state == b
  {
  }

  /** The messages of a successful join carry no `match_ready`. */
  lemma JoinNoticesNoReady(t: RegistryState, conn: ConnId, id: RoomId, pid: PeerId, ice: Json)
    requires id in t.rooms
    ensures forall o :: o in JoinNotices(t, conn, id, pid, ice) ==> o.msg != MatchReady
  {
    var joined := t.rooms[id];
    var up := Fanout(UpsertTargets(t, id), LobbyUpsert(t.rooms[id].roomId, RoomToLobby(t.rooms[id])));
    var rm := Fanout(RemoveTargets(t, id), LobbyRemove(id));
    var b := Reply(conn, IdAssigned(pid, joined.hostId, joined.topology, joined.capacity, ice));
    var c := Fanout(SessionTargets(t.peers, JoinNotified(joined, pid)), PeerJoined(pid));
    assert LobbyDeltas(t, id) == up + rm;
    assert JoinNotices(t, conn, id, pid, ice) == up + rm + b + c;
    assert forall o :: o in up + rm + b + c ==> o in up || o in rm || o in b || o in c;
  }

  /** A join never emits `match_ready`. */
  lemma JoinNeverMatchReady(s: RegistryState, conn: ConnId, m: Fields, now: int, ice: Json)
    requires Inv(s)
    ensures forall o :: o in JoinStep(s, conn, m, now, ice).out ==> o.msg != MatchReady
  {
    var r := JoinStep(s, conn, m, now, ice);
    JoinRefusalIsOneError(s, conn, m, now, ice);
    if r.newPeer.Some? {
      JoinFailureCases(s, conn, m, now, ice);
      AdmitShape(s, conn, m, now, ice);
      JoinNoticesNoReady(AfterJoin(s, conn, m, now), conn, Strip(m.roomId), s.nextPeerId, ice);
    }
  }

  /** A join keeps the registry invariant: members within capacity, acks
      among members, every member's session bound to its room, ids fresh. */
  lemma JoinPreservesInv(s: RegistryState, conn: ConnId, m: Fields, now: int, ice: Json)
    requires Inv(s) && 1 <= conn < s.nextConnectionId
    ensures Inv(JoinStep(s, conn, m, now, ice).state)
  {
    JoinFailureCases(s, conn, m, now, ice);
    if Admissible(s, m) {
      AdmitShape(s, conn, m, now, ice);
      AfterJoinInv(s, conn, m, now);
    }
  }

  lemma AfterJoinInv(s: RegistryState, conn: ConnId, m: Fields, now: int)
    requires Inv(s) && 1 <= conn < s.nextConnectionId && Admissible(s, m)
    ensures Inv(AfterJoin(s, conn, m, now))
  {
    var id := Strip(m.roomId);
    var t := AfterJoin(s, conn, m, now);
    JoinedRoomOk(s, conn, m, now);
    forall k | k in t.rooms && k != id ensures RoomOk(t, k, t.rooms[k]) {
      OtherRoomOk(s, conn, m, now, k);
    }
    AfterJoinOrder(s, conn, m, now);
  }

  /** The parts of the registry after a join. */
  lemma AfterJoinParts(s: RegistryState, conn: ConnId, m: Fields, now: int)
    ensures var id := Strip(m.roomId);
            var pid := s.nextPeerId;
            var t := AfterJoin(s, conn, m, now);
            var room := if id in s.rooms then s.rooms[id] else NewRoom(id, pid, m, now);
            && t.rooms == s.rooms[id := Grown(room, pid, now)]
            && t.peers == s.peers[pid := PeerSession(pid, conn, id, now)]
            && t.roomOrder == (if id in s.rooms then s.roomOrder else s.roomOrder + [id])
            && t.subscriptions == s.subscriptions
            && t.nextPeerId == pid + 1 && t.nextConnectionId == s.nextConnectionId
  {
  }

  /** The room joined keeps its invariant with the joiner in it. */
  lemma JoinedRoomOk(s: RegistryState, conn: ConnId, m: Fields, now: int)
    requires Inv(s) && Admissible(s, m)
    ensures RoomOk(AfterJoin(s, conn, m, now), Strip(m.roomId), AfterJoin(s, conn, m, now).rooms[Strip(m.roomId)])
  {
    var id := Strip(m.roomId);
    var pid := s.nextPeerId;
    AfterJoinParts(s, conn, m, now);
    StripEmptyIffBlank(m.roomId);
    if id in s.rooms {
      assert RoomOk(s, id, s.rooms[id]);
      MembersAreOld(s, id);
      assert |s.rooms[id].peerIds + {pid}| == |s.rooms[id].peerIds| + 1;
    }
  }

  /** The rooms a join does not touch keep their invariant. */
  lemma OtherRoomOk(s: RegistryState, conn: ConnId, m: Fields, now: int, k: RoomId)
    requires Inv(s) && Admissible(s, m)
    requires k in AfterJoin(s, conn, m, now).rooms && k != Strip(m.roomId)
    ensures RoomOk(AfterJoin(s, conn, m, now), k, AfterJoin(s, conn, m, now).rooms[k])
  {
    AfterJoinParts(s, conn, m, now);
    assert RoomOk(s, k, s.rooms[k]);
    MembersAreOld(s, k);
  }

  /** A join keeps the order free of duplicates and in step with the keys,
      and its sessions and subscriptions well formed. */
  lemma AfterJoinOrder(s: RegistryState, conn: ConnId, m: Fields, now: int)
    requires Inv(s) && 1 <= conn < s.nextConnectionId && Admissible(s, m)
    ensures var t := AfterJoin(s, conn, m, now);
            && NoDup(t.roomOrder) && (forall k :: k in t.roomOrder <==> k in t.rooms)
            && (forall p :: p in t.peers ==>
                  t.peers[p].peerId == p && 1 <= p < t.nextPeerId && 1 <= t.peers[p].conn < t.nextConnectionId)
            && (forall c :: c in t.subscriptions ==> t.subscriptions[c].connectionId == c && 1 <= c < t.nextConnectionId)
  {
    var id := Strip(m.roomId);
    var t := AfterJoin(s, conn, m, now);
    AfterJoinParts(s, conn, m, now);
    if id !in s.rooms {
      AppendKeepsOrder(s.roomOrder, s.rooms, id, t.rooms);
    }
  }

  /** Appending a new key to the order of a map keeps the two in step. */
  lemma AppendKeepsOrder(order: seq<RoomId>, rooms: map<RoomId, RoomState>, id: RoomId, rooms': map<RoomId, RoomState>)
    requires NoDup(order) && (forall k :: k in order <==> k in rooms)
    requires id !in rooms && rooms'.Keys == rooms.Keys + {id}
    ensures NoDup(order + [id]) && forall k :: k in order + [id] <==> k in rooms'
  {
    var o := order + [id];
    forall i, j | 0 <= i < j < |o| ensures o[i] != o[j] {
      if j == |order| {
        assert o[i] == order[i];
        assert order[i] in order;
      }
    }
  }
}
