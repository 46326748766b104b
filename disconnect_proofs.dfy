/** What `handle_disconnect` guarantees: the session goes, the room closes
    when its host leaves or it empties and reopens otherwise, the remaining
    members hear `room_closed` or `peer_left`, and the invariant holds. */
module DisconnectProofs {
  import opened Protocol
  import opened Lobbies
  import opened Rooms
  import opened RoomFacts

  /** A peer without a session changes nothing and sends nothing. */
  lemma DisconnectUnknown(s: RegistryState, pid: PeerId, now: int)
    requires pid !in s.peers
    ensures DisconnectStep(s, pid, now) == Step(s, [])
  {
  }

  /** The peer's session is removed; its room is dropped (from the map and
      the order) when the host left or nobody remains, and otherwise keeps
      the other members and acks, is unsealed and touched; every other room
      is untouched. */
  lemma DisconnectState(s: RegistryState, pid: PeerId, now: int)
    requires pid in s.peers
    ensures var t := DisconnectStep(s, pid, now).state;
            var k := s.peers[pid].roomId;
            && t.peers == s.peers - {pid}
            && t.subscriptions == s.subscriptions
            && t.nextPeerId == s.nextPeerId && t.nextConnectionId == s.nextConnectionId
            && (forall j :: j != k ==> (j in t.rooms <==> j in s.rooms) && (j in s.rooms ==> t.rooms[j] == s.rooms[j]))
            && (k in s.rooms ==>
                  var room := s.rooms[k];
                  var closes := pid == room.hostId || room.peerIds - {pid} == {};
                  && (closes ==> k !in t.rooms && t.roomOrder == Without(s.roomOrder, {k}))
                  && (!closes ==>
                        && k in t.rooms && t.roomOrder == s.roomOrder
                        && t.rooms[k] == room.(peerIds := room.peerIds - {pid},
                                               connectedAck := room.connectedAck - {pid},
                                               isSealed := false, lastActivity := now)))
            && (k !in s.rooms ==> t.rooms == s.rooms && t.roomOrder == s.roomOrder)
  {
  }

  /** A session whose room is gone leaves without a word: no leave notice
      and no lobby delta. */
  lemma DisconnectVanishedRoom(s: RegistryState, pid: PeerId, now: int)
    requires pid in s.peers && s.peers[pid].roomId !in s.rooms
    ensures DisconnectStep(s, pid, now).out == []
  {
  }

  /** Who hears what from a disconnect: when the host leaves, every
      remaining member hears `room_closed`; otherwise every remaining member
      hears `peer_left`; the leaving peer and non-members hear nothing. */
  lemma DisconnectNotices(s: RegistryState, pid: PeerId, now: int, q: PeerId)
    requires Inv(s) && pid in s.peers
    ensures var k := s.peers[pid].roomId;
            var r := DisconnectStep(s, pid, now);
            Inbox(r.out, Peer(q)) ==
              if k in s.rooms && q in s.rooms[k].peerIds && q != pid
              then [if pid == s.rooms[k].hostId then RoomClosed else PeerLeft(pid)]
              else []
  {
    var k := s.peers[pid].roomId;
    if k in s.rooms {
      var room := s.rooms[k];
      assert RoomOk(s, k, room);
      var t := DisconnectStep(s, pid, now).state;
      var left := room.peerIds - {pid};
      var to := BroadcastTargets(t.peers, left, None);
      assert Peer(q) in to <==> q in left by {
        assert forall p :: p in left ==> p in t.peers;
      }
      var notice := if pid == room.hostId then Fanout(to, RoomClosed)
                    else if left != {} then Fanout(to, PeerLeft(pid))
                    else [];
      InboxAppend(notice, LobbyDeltas(t, k), Peer(q));
      LobbyDeltasPerSubscriber(t, k, Peer(q));
      InboxFanout(to, RoomClosed, Peer(q));
      InboxFanout(to, PeerLeft(pid), Peer(q));
    }
  }

  /** Every lobby subscriber hears the room's new state once: a removal
      when the room closed, otherwise what its filter selects. */
  lemma DisconnectLobbyDelta(s: RegistryState, pid: PeerId, now: int, c: ConnId)
    requires pid in s.peers && s.peers[pid].roomId in s.rooms
    ensures var k := s.peers[pid].roomId;
            var t := DisconnectStep(s, pid, now).state;
            Inbox(DisconnectStep(s, pid, now).out, Conn(c)) ==
              if c in s.subscriptions then [DeltaFor(Get(t.rooms, k), k, s.subscriptions[c].filterTags)] else []
  {
    var k := s.peers[pid].roomId;
    var room := s.rooms[k];
    var t := DisconnectStep(s, pid, now).state;
    var left := room.peerIds - {pid};
    var to := BroadcastTargets(t.peers, left, None);
    var notice := if pid == room.hostId then Fanout(to, RoomClosed)
                  else if left != {} then Fanout(to, PeerLeft(pid))
                  else [];
    InboxAppend(notice, LobbyDeltas(t, k), Conn(c));
    LobbyDeltasPerSubscriber(t, k, Conn(c));
    InboxFanout(to, RoomClosed, Conn(c));
    InboxFanout(to, PeerLeft(pid), Conn(c));
  }

  lemma DisconnectPreservesInv(s: RegistryState, pid: PeerId, now: int)
    requires Inv(s)
    ensures Inv(DisconnectStep(s, pid, now).state)
  {
    if pid in s.peers {
      var k := s.peers[pid].roomId;
      var t := DisconnectStep(s, pid, now).state;
      DisconnectState(s, pid, now);
      if k in s.rooms {
        var room := s.rooms[k];
        assert RoomOk(s, k, room);
        if pid == room.hostId || room.peerIds - {pid} == {} {
          WithoutKeepsNoDup(s.roomOrder, {k});
        }
      }
      forall j | j in t.rooms ensures RoomOk(t, j, t.rooms[j]) {
        assert RoomOk(s, j, s.rooms[j]);
        if j != k {
          assert pid !in s.rooms[j].peerIds;
        }
      }
    }
  }
}
