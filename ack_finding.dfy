/** `handle_peer_connected` as written adds the sender to the acks of the
    room its session names without checking that it is a member. Sessions
    outlive their room when its host leaves, and a later room may reuse the
    id; such an orphan's ack then counts towards the new room, whose
    `match_ready` can fire before all of its members have acked. */
module AckFinding {
  import opened Protocol
  import opened Text
  import opened Rooms
  import opened AckProofs
  import opened RoomFacts
  import opened JoinProofs
  import opened DisconnectProofs

  /** `handle_peer_connected` exactly as written. */
  function PeerConnectedAsWritten(s: RegistryState, pid: PeerId, now: int): (r: Step)
    ensures pid in s.peers && s.peers[pid].roomId in s.rooms ==>
              var k := s.peers[pid].roomId;
              k in r.state.rooms && r.state.rooms[k].connectedAck == s.rooms[k].connectedAck + {pid}
  {
    if pid !in s.peers then Step(s, [])
    else
      var roomId := s.peers[pid].roomId;
      if roomId !in s.rooms then Step(s, [])
      else
        var room := s.rooms[roomId];
        var s' := s.(rooms := s.rooms[roomId := room.(connectedAck := room.connectedAck + {pid}, lastActivity := now)]);
        MatchReadyStep(s', roomId, now)
  }

  function HostJoin(roomId: string): Fields
  {
    Fields(roomId, true, "mesh", 2, None, None, 0, None, None)
  }

  function GuestJoin(roomId: string): Fields
  {
    Fields(roomId, false, "mesh", 2, None, None, 0, None, None)
  }

  function Room(host: PeerId, members: set<PeerId>, sealed: bool): RoomState
  {
    RoomState("r", host, Mesh, 2, sealed, members, {}, [], 0)
  }

  function Session(p: PeerId): PeerSession
  {
    PeerSession(p, p, "r", 0)
  }

  /** Four accepted websockets, connection ids 1 to 4, all at time 0. */
  function S0(): RegistryState
  {
    RegistryState(map[], [], map[], map[], 1, 5)
  }

  /** Peer 1 (on connection 1) hosts room "r" of two. */
  function S1(): RegistryState
  {
    RegistryState(map["r" := Room(1, {1}, false)], ["r"], map[1 := Session(1)], map[], 2, 5)
  }

  /** Peer 2 joins it, which fills and seals it. */
  function S2(): RegistryState
  {
    RegistryState(map["r" := Room(1, {1, 2}, true)], ["r"], map[1 := Session(1), 2 := Session(2)], map[], 3, 5)
  }

  /** The host disconnects: the room closes, the session of peer 2 stays,
      still naming "r". */
  function S3(): RegistryState
  {
    RegistryState(map[], [], map[2 := Session(2)], map[], 3, 5)
  }

  /** Peer 3 hosts a new room "r" of two. */
  function S4(): RegistryState
  {
    RegistryState(map["r" := Room(3, {3}, false)], ["r"], map[2 := Session(2), 3 := Session(3)], map[], 4, 5)
  }

  /** Peer 4 joins the new room, which fills and seals it. */
  function Reused(): RegistryState
  {
    RegistryState(map["r" := Room(3, {3, 4}, true)], ["r"],
                  map[2 := Session(2), 3 := Session(3), 4 := Session(4)], map[], 5, 5)
  }

  lemma StripR()
    ensures Strip("r") == "r"
  {
    assert !IsSpace('r');
    assert TrimLeft("r") == "r";
  }

  /** The registries above are the ones the handlers produce, in turn. */
  lemma Reached1(ice: Json)
    ensures JoinStep(S0(), 1, HostJoin("r"), 0, ice).state == S1()
  {
    var b := WithRoom(S0().(nextPeerId := 2), "r", 1, HostJoin("r"), 0);
    StripR();
    assert JoinStep(S0(), 1, HostJoin("r"), 0, ice) == Admit(b, 1, "r", 1, true, 0, ice);
    NoReadyOnAdmit(b, 1, "r", 1, true, 0, ice);
    assert S1().rooms["r"].peerIds == {} + {1};
  }

  lemma Reached2(ice: Json)
    ensures JoinStep(S1(), 2, GuestJoin("r"), 0, ice).state == S2()
  {
    var b := WithRoom(S1().(nextPeerId := 3), "r", 2, GuestJoin("r"), 0);
    StripR();
    assert JoinStep(S1(), 2, GuestJoin("r"), 0, ice) == Admit(b, 2, "r", 2, false, 0, ice);
    NoReadyOnAdmit(b, 2, "r", 2, false, 0, ice);
    assert |{1, 2}| == 2;
    assert S2().rooms["r"].peerIds == {1} + {2};
  }

  lemma Reached3()
    ensures DisconnectStep(S2(), 1, 0).state == S3()
  {
    assert S2().peers - {1} == S3().peers;
    assert Without(["r"], {"r"}) == [];
  }

  lemma Reached4(ice: Json)
    ensures JoinStep(S3(), 3, HostJoin("r"), 0, ice).state == S4()
  {
    var b := WithRoom(S3().(nextPeerId := 4), "r", 3, HostJoin("r"), 0);
    StripR();
    assert JoinStep(S3(), 3, HostJoin("r"), 0, ice) == Admit(b, 3, "r", 3, true, 0, ice);
    NoReadyOnAdmit(b, 3, "r", 3, true, 0, ice);
    assert S4().rooms["r"].peerIds == {} + {3};
  }

  lemma Reached5(ice: Json)
    ensures JoinStep(S4(), 4, GuestJoin("r"), 0, ice).state == Reused()
  {
    var b := WithRoom(S4().(nextPeerId := 5), "r", 4, GuestJoin("r"), 0);
    StripR();
    assert JoinStep(S4(), 4, GuestJoin("r"), 0, ice) == Admit(b, 4, "r", 4, false, 0, ice);
    NoReadyOnAdmit(b, 4, "r", 4, false, 0, ice);
    assert |{3, 4}| == 2;
    assert Reused().rooms["r"].peerIds == {3} + {4};
  }

  /** As written, the orphan 2 and the member 3 ack, and peer 4 receives
      `match_ready` although it never acked. */
  lemma OrphanAckFiresMatchReady()
    ensures var s := Reused();
            var a := PeerConnectedAsWritten(s, 2, 0);
            var b := PeerConnectedAsWritten(a.state, 3, 0);
            && 4 in s.rooms["r"].peerIds && 4 !in b.state.rooms["r"].connectedAck
            && Inbox(b.out, Peer(4)) == [MatchReady]
  {
    var s := Reused();
    var a := PeerConnectedAsWritten(s, 2, 0);
    assert a.state.rooms["r"].connectedAck == {2};
    assert a.out == [];
    var b := PeerConnectedAsWritten(a.state, 3, 0);
    assert b.state.rooms["r"].connectedAck == {2, 3};
    assert |{2} + {3}| == 2;
    var to := BroadcastTargets(b.state.peers, {3, 4}, None);
    assert Peer(4) in to;
    InboxFanout(to, MatchReady, Peer(4));
  }

  /** With the ack restricted to members, the same two acks leave peer 4
      without `match_ready`. */
  lemma MemberAckWaitsForAll()
    ensures var s := Reused();
            var a := PeerConnectedStep(s, 2, 0);
            var b := PeerConnectedStep(a.state, 3, 0);
            Inbox(b.out, Peer(4)) == []
  {
    var s := Reused();
    var a := PeerConnectedStep(s, 2, 0);
    assert a.state.rooms["r"].connectedAck == {};
    var b := PeerConnectedStep(a.state, 3, 0);
    assert b.state.rooms["r"].connectedAck == {3};
  }

  /** As written, the registry invariant is not kept: `Reused()` satisfies
      it, and the ack of orphan 2 then puts a non-member into the acks of
      room "r". */
  lemma OrphanAckBreaksInv()
    ensures Inv(Reused())
    ensures var t := PeerConnectedAsWritten(Reused(), 2, 0).state;
            && "r" in t.rooms
            && t.rooms["r"].connectedAck == {2} && t.rooms["r"].peerIds == {3, 4}
            && !Inv(t)
  {
    var s := Reused();
    assert |{3, 4}| == 2;
    assert RoomOk(s, "r", s.rooms["r"]);
    var t := PeerConnectedAsWritten(s, 2, 0).state;
    assert t.rooms["r"].connectedAck == {2};
    assert !RoomOk(t, "r", t.rooms["r"]);
  }

  /** A signal compares room ids only, so orphan 2 and member 3 of the room
      that reuses the id "r" signal each other in both directions, and each
      relay keeps that room alive for the sweep. */
  lemma OrphanSignalsReusedRoom(now: int)
    ensures var m := Fields("", false, "", 0, None, None, 3, Some("x"), None);
            var r := SignalStep(Reused(), 2, m, now);
            && 2 !in Reused().rooms["r"].peerIds
            && r.out == [Outbound({Peer(3)}, Signal(2, Some("x"), None))]
            && r.state.rooms["r"].lastActivity == now
    ensures var m := Fields("", false, "", 0, None, None, 2, Some("x"), None);
            var r := SignalStep(Reused(), 3, m, now);
            && r.out == [Outbound({Peer(2)}, Signal(3, Some("x"), None))]
            && r.state.rooms["r"].lastActivity == now
  {
  }

  /** As written, the join path fires too: once orphan 2 and host 3 have
      acked the new room "r" (two acks, one member), the join of peer 4
      fills it, and the `maybe_emit_match_ready` call at the end of
      `handle_join` sends `match_ready` to peer 4, which never acked. */
  lemma OrphanAcksFireOnJoin(ice: Json)
    ensures var a := PeerConnectedAsWritten(S4(), 2, 0);
            var b := PeerConnectedAsWritten(a.state, 3, 0);
            var j := JoinStep(b.state, 4, GuestJoin("r"), 0, ice);
            && b.out == []
            && b.state.rooms["r"].connectedAck == {2, 3} && b.state.rooms["r"].peerIds == {3}
            && j.newPeer == Some(4)
            && MatchReady in Inbox(j.out, Peer(4))
  {
    var a := PeerConnectedAsWritten(S4(), 2, 0);
    assert a.state.rooms["r"].connectedAck == {2};
    var b := PeerConnectedAsWritten(a.state, 3, 0);
    assert b.state.rooms["r"].connectedAck == {2, 3};
    assert b.out == [];
    StripR();
    var s1 := b.state.(nextPeerId := 5);
    var room := s1.rooms["r"];
    assert !room.isSealed && !IsFull(room);
    var s2 := Admitted(s1, 4, "r", 4, 0);
    assert JoinStep(b.state, 4, GuestJoin("r"), 0, ice) == Admit(s1, 4, "r", 4, false, 0, ice);
    assert s2.rooms["r"].peerIds == {3, 4};
    assert |{3, 4}| == 2 && |{2, 3}| == 2;
    assert IsFull(s2.rooms["r"]);
    var ready := MatchReadyStep(s2, "r", 0);
    var to := BroadcastTargets(ready.state.peers, {3, 4}, None);
    assert Peer(4) in to;
    assert ready.out == Fanout(to, MatchReady);
    InboxFanout(to, MatchReady, Peer(4));
    InboxAppend(JoinNotices(s2, 4, "r", 4, ice), ready.out, Peer(4));
  }

  /** The whole run from four fresh connections: as written, peer 4 gets
      `match_ready` without having acked; with member-only acks it does
      not. */
  lemma OrphanAckTrace(ice: Json)
    ensures Inv(S0())
    ensures var s1 := JoinStep(S0(), 1, HostJoin("r"), 0, ice).state;
            var s2 := JoinStep(s1, 2, GuestJoin("r"), 0, ice).state;
            var s3 := DisconnectStep(s2, 1, 0).state;
            var s4 := JoinStep(s3, 3, HostJoin("r"), 0, ice).state;
            var s5 := JoinStep(s4, 4, GuestJoin("r"), 0, ice).state;
            && Inbox(PeerConnectedAsWritten(PeerConnectedAsWritten(s5, 2, 0).state, 3, 0).out, Peer(4)) == [MatchReady]
            && Inbox(PeerConnectedStep(PeerConnectedStep(s5, 2, 0).state, 3, 0).out, Peer(4)) == []
  {
    Reached1(ice);
    Reached2(ice);
    Reached3();
    Reached4(ice);
    Reached5(ice);
    OrphanAckFiresMatchReady();
    MemberAckWaitsForAll();
  }
}
