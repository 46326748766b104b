/** What `handle_peer_connected` and `maybe_emit_match_ready` guarantee: acks
    come only from members, and `match_ready` reaches every member of a full
    room exactly when all of them have acked. */
module AckProofs {
  import opened Protocol
  import opened Rooms
  import opened RoomFacts

  /** `match_ready` is emitted only for a stored, full room whose every
      member has acked, and then it reaches each member and nobody else. */
  lemma MatchReadyOnlyWhenAllAcked(s: RegistryState, k: RoomId, now: int)
    requires Inv(s)
    ensures var r := MatchReadyStep(s, k, now);
            r.out != [] ==>
              && k in s.rooms && IsFull(s.rooms[k])
              && s.rooms[k].connectedAck == s.rooms[k].peerIds
  {
    var r := MatchReadyStep(s, k, now);
    if r.out != [] {
      assert RoomOk(s, k, s.rooms[k]);
      SubsetAsLargeIsEqual(s.rooms[k].connectedAck, s.rooms[k].peerIds);
    }
  }

  /** Conversely, a full room whose members have all acked gets
      `match_ready`, once, on every member's session. */
  lemma MatchReadyReachesMembers(s: RegistryState, k: RoomId, now: int, q: PeerId)
    requires Inv(s) && k in s.rooms
    ensures var r := MatchReadyStep(s, k, now);
            var room := s.rooms[k];
            Inbox(r.out, Peer(q)) ==
              if IsFull(room) && room.connectedAck == room.peerIds && q in room.peerIds then [MatchReady] else []
  {
    var room := s.rooms[k];
    assert RoomOk(s, k, room);
    if IsFull(room) && |room.connectedAck| >= |room.peerIds| {
      SubsetAsLargeIsEqual(room.connectedAck, room.peerIds);
      var t := Touch(s, k, now);
      assert t.peers == s.peers;
      BroadcastReachesMembers(s, k, room.peerIds, q);
      InboxFanout(BroadcastTargets(t.peers, room.peerIds, None), MatchReady, Peer(q));
    }
  }

  /** The ack a `peer_connected` records: the sender's id joins the acks of
      its room when it is a member; nothing else changes but that room's
      activity time. */
  lemma PeerConnectedAcks(s: RegistryState, pid: PeerId, now: int)
    ensures var t := PeerConnectedStep(s, pid, now).state;
            && t.peers == s.peers && t.subscriptions == s.subscriptions && t.roomOrder == s.roomOrder
            && t.nextPeerId == s.nextPeerId && t.nextConnectionId == s.nextConnectionId
            && t.rooms.Keys == s.rooms.Keys
            && forall k :: k in s.rooms ==>
                 var mine := pid in s.peers && s.peers[pid].roomId == k;
                 && t.rooms[k].connectedAck ==
                    s.rooms[k].connectedAck + (if mine && pid in s.rooms[k].peerIds then {pid} else {})
                 && t.rooms[k] == s.rooms[k].(connectedAck := t.rooms[k].connectedAck,
                                              lastActivity := t.rooms[k].lastActivity)
                 && (!mine ==> t.rooms[k] == s.rooms[k])
  {
    if pid in s.peers && s.peers[pid].roomId in s.rooms {
      var k := s.peers[pid].roomId;
      var room := s.rooms[k];
      var acked := if pid in room.peerIds then room.connectedAck + {pid} else room.connectedAck;
      var s' := s.(rooms := s.rooms[k := room.(connectedAck := acked, lastActivity := now)]);
      MatchReadyState(s', k, now);
    }
  }

  lemma PeerConnectedPreservesInv(s: RegistryState, pid: PeerId, now: int)
    requires Inv(s)
    ensures Inv(PeerConnectedStep(s, pid, now).state)
  {
    if pid in s.peers && s.peers[pid].roomId in s.rooms {
      var k := s.peers[pid].roomId;
      var room := s.rooms[k];
      var acked := if pid in room.peerIds then room.connectedAck + {pid} else room.connectedAck;
      var s' := s.(rooms := s.rooms[k := room.(connectedAck := acked, lastActivity := now)]);
      forall j | j in s'.rooms ensures RoomOk(s', j, s'.rooms[j]) {
        assert RoomOk(s, j, s.rooms[j]);
      }
      MatchReadyInv(s', k, now);
    }
  }

  /** The ack that completes a full room sends `match_ready` to each of its
      members; any `match_ready` a `peer_connected` sends means the room is
      full and every member has acked. */
  lemma PeerConnectedMatchReady(s: RegistryState, pid: PeerId, now: int, q: PeerId)
    requires Inv(s) && pid in s.peers && s.peers[pid].roomId in s.rooms
    ensures var k := s.peers[pid].roomId;
            var room := s.rooms[k];
            var acked := if pid in room.peerIds then room.connectedAck + {pid} else room.connectedAck;
            Inbox(PeerConnectedStep(s, pid, now).out, Peer(q)) ==
              if IsFull(room) && acked == room.peerIds && q in room.peerIds then [MatchReady] else []
  {
    var k := s.peers[pid].roomId;
    var room := s.rooms[k];
    var acked := if pid in room.peerIds then room.connectedAck + {pid} else room.connectedAck;
    var s' := s.(rooms := s.rooms[k := room.(connectedAck := acked, lastActivity := now)]);
    PeerConnectedPreservesInv(s, pid, now);
    assert Inv(s') by {
      forall j | j in s'.rooms ensures RoomOk(s', j, s'.rooms[j]) {
        assert RoomOk(s, j, s.rooms[j]);
      }
    }
    MatchReadyReachesMembers(s', k, now, q);
  }

  /** No connection hears of an ack; only sessions do. */
  lemma PeerConnectedToMembersOnly(s: RegistryState, pid: PeerId, now: int, c: ConnId)
    ensures Inbox(PeerConnectedStep(s, pid, now).out, Conn(c)) == []
  {
    if pid in s.peers && s.peers[pid].roomId in s.rooms {
      var k := s.peers[pid].roomId;
      var room := s.rooms[k];
      var acked := if pid in room.peerIds then room.connectedAck + {pid} else room.connectedAck;
      var s' := s.(rooms := s.rooms[k := room.(connectedAck := acked, lastActivity := now)]);
      MatchReadyToPeersOnly(s', k, now, c);
    }
  }
}
