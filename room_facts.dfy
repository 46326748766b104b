/** Facts about the registry invariant shared by the handler proofs. */
module RoomFacts {
  import opened Protocol
  import opened Lobbies
  import opened Rooms

  /** A fresh registry satisfies the invariant. */
  lemma InitInv()
    ensures Inv(Init())
  {
  }

  /** A subset at least as large as its superset is the superset. */
  lemma {:induction false} SubsetAsLargeIsEqual(a: set<PeerId>, b: set<PeerId>)
    requires a <= b && |a| >= |b|
    ensures a == b
  {
    var rest := b - a;
    assert b == a + rest && a !! rest;
    assert |b| == |a| + |rest|;
    assert rest == {};
  }

  lemma SubsetNoLarger(a: set<PeerId>, b: set<PeerId>)
    requires a <= b
    ensures |a| <= |b|
  {
    var rest := b - a;
    assert b == a + rest && a !! rest;
  }

  /** Members of stored rooms, and sessions, carry ids already handed out. */
  lemma MembersAreOld(s: RegistryState, k: RoomId)
    requires Inv(s) && k in s.rooms
    ensures forall p :: p in s.rooms[k].peerIds ==> p < s.nextPeerId
    ensures s.rooms[k].hostId < s.nextPeerId
    ensures s.nextPeerId !in s.rooms[k].peerIds && s.nextPeerId !in s.rooms[k].connectedAck
  {
    assert RoomOk(s, k, s.rooms[k]);
  }

  /** Refreshing a room's activity time keeps the invariant. */
  lemma TouchInv(s: RegistryState, k: RoomId, now: int)
    requires Inv(s) && k in s.rooms
    ensures Inv(Touch(s, k, now))
  {
    var t := Touch(s, k, now);
    forall j | j in t.rooms ensures RoomOk(t, j, t.rooms[j]) {
      assert RoomOk(s, j, s.rooms[j]);
    }
  }

  /** `maybe_emit_match_ready` changes nothing but the room's activity time. */
  lemma MatchReadyState(s: RegistryState, k: RoomId, now: int)
    ensures MatchReadyStep(s, k, now).state == s
         || (k in s.rooms && MatchReadyStep(s, k, now).state == Touch(s, k, now))
  {
  }

  lemma MatchReadyInv(s: RegistryState, k: RoomId, now: int)
    requires Inv(s)
    ensures Inv(MatchReadyStep(s, k, now).state)
  {
    MatchReadyState(s, k, now);
    if k in s.rooms {
      TouchInv(s, k, now);
    }
  }

  /** No message of `maybe_emit_match_ready` goes to a connection. */
  lemma MatchReadyToPeersOnly(s: RegistryState, k: RoomId, now: int, c: ConnId)
    ensures Inbox(MatchReadyStep(s, k, now).out, Conn(c)) == []
  {
    if k in s.rooms {
      var t := Touch(s, k, now);
      InboxFanout(BroadcastTargets(t.peers, s.rooms[k].peerIds, None), MatchReady, Conn(c));
    }
  }

  /** Under the invariant the session of every member is present, so a
      broadcast to a room reaches exactly its members. */
  lemma BroadcastReachesMembers(s: RegistryState, k: RoomId, members: set<PeerId>, q: PeerId)
    requires Inv(s) && k in s.rooms && members <= s.rooms[k].peerIds
    ensures Peer(q) in BroadcastTargets(s.peers, members, None) <==> q in members
  {
    assert RoomOk(s, k, s.rooms[k]);
  }

  /** Dropping keys from the order keeps it free of duplicates. */
  lemma WithoutKeepsNoDup(order: seq<RoomId>, gone: set<RoomId>)
    requires NoDup(order)
    ensures NoDup(Without(order, gone))
  {
    if order != [] {
      WithoutKeepsNoDup(order[1..], gone);
      var rest := Without(order[1..], gone);
      var head := if order[0] in gone then [] else [order[0]];
      assert order[0] !in order[1..] by {
        forall i | 0 <= i < |order[1..]| ensures order[1..][i] != order[0] {
          assert order[1..][i] == order[i + 1];
        }
      }
      forall i, j | 0 <= i < j < |head + rest| ensures (head + rest)[i] != (head + rest)[j] {
        if head != [] && i == 0 {
          assert (head + rest)[j] == rest[j - 1];
          assert rest[j - 1] in rest;
        }
      }
    }
  }
}
