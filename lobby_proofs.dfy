/** What the lobby handlers guarantee: `list_lobbies` and the snapshot of
    `subscribe_lobbies` show exactly the open rooms the filter selects, in
    dict order, and a subscription is registered or dropped for the caller's
    connection only. */
module LobbyProofs {
  import opened Protocol
  import opened Lobbies
  import opened Rooms
  import opened RoomFacts

  /** The rooms along an order are the stored rooms named in it. */
  lemma {:induction false} RoomsAlongMembers(order: seq<RoomId>, rooms: map<RoomId, RoomState>, r: RoomState)
    ensures r in RoomsAlong(order, rooms) <==> exists k :: k in order && k in rooms && rooms[k] == r
  {
    if order != [] {
      RoomsAlongMembers(order[1..], rooms, r);
      var head := if order[0] in rooms then [rooms[order[0]]] else [];
      assert RoomsAlong(order, rooms) == head + RoomsAlong(order[1..], rooms);
      if exists k :: k in order && k in rooms && rooms[k] == r {
        var k :| k in order && k in rooms && rooms[k] == r;
        if k != order[0] {
          assert k in order[1..];
        }
      }
    }
  }

  /** A record is in the lobby snapshot exactly when it is the record of a
      stored room that is open and carries every tag of the filter. */
  lemma SnapshotShowsVisibleRooms(s: RegistryState, f: set<string>, l: Lobby)
    requires Inv(s)
    ensures l in LobbySnapshotOf(s, f) <==>
            exists k :: k in s.rooms && IsVisible(s.rooms[k], f) && RoomToLobby(s.rooms[k]) == l
  {
    var along := RoomsAlong(s.roomOrder, s.rooms);
    SnapshotMembers(along, f, l);
    if l in LobbySnapshotOf(s, f) {
      var i :| 0 <= i < |along| && IsVisible(along[i], f) && RoomToLobby(along[i]) == l;
      RoomsAlongMembers(s.roomOrder, s.rooms, along[i]);
    }
    if exists k :: k in s.rooms && IsVisible(s.rooms[k], f) && RoomToLobby(s.rooms[k]) == l {
      var k :| k in s.rooms && IsVisible(s.rooms[k], f) && RoomToLobby(s.rooms[k]) == l;
      RoomsAlongMembers(s.roomOrder, s.rooms, s.rooms[k]);
      var i :| 0 <= i < |along| && along[i] == s.rooms[k];
    }
  }

  /** `list_lobbies` answers the caller only, with `lobby_list` and then
      `lobby_snapshot` carrying the same records. */
  lemma ListLobbiesReplies(s: RegistryState, conn: ConnId, m: Fields, x: Recipient)
    ensures var lobbies := LobbySnapshotOf(s, NormalizeFilterTags(m.filterTags));
            Inbox(ListLobbiesStep(s, conn, m), x) ==
              if x == Conn(conn) then [LobbyList(lobbies), LobbySnapshot(lobbies)] else []
  {
    var lobbies := LobbySnapshotOf(s, NormalizeFilterTags(m.filterTags));
    InboxAppend(Reply(conn, LobbyList(lobbies)), Reply(conn, LobbySnapshot(lobbies)), x);
    InboxReply(conn, LobbyList(lobbies), x);
    InboxReply(conn, LobbySnapshot(lobbies), x);
  }

  /** `subscribe_lobbies` registers (or replaces) the caller's subscription
      with its normalised filter, leaves everything else as it was, and
      answers the caller only with the snapshot for that filter. */
  lemma SubscribeRegisters(s: RegistryState, conn: ConnId, m: Fields, x: Recipient)
    ensures var r := SubscribeStep(s, conn, m);
            var f := NormalizeFilterTags(m.filterTags);
            && r.state.subscriptions == s.subscriptions[conn := LobbySubscription(conn, f)]
            && r.state.rooms == s.rooms && r.state.roomOrder == s.roomOrder && r.state.peers == s.peers
            && r.state.nextPeerId == s.nextPeerId && r.state.nextConnectionId == s.nextConnectionId
            && Inbox(r.out, x) == if x == Conn(conn) then [LobbySnapshot(LobbySnapshotOf(s, f))] else []
  {
    var f := NormalizeFilterTags(m.filterTags);
    InboxReply(conn, LobbySnapshot(LobbySnapshotOf(s, f)), x);
  }

  lemma SubscribePreservesInv(s: RegistryState, conn: ConnId, m: Fields)
    requires Inv(s) && 1 <= conn < s.nextConnectionId
    ensures Inv(SubscribeStep(s, conn, m).state)
  {
    var t := SubscribeStep(s, conn, m).state;
    forall k | k in t.rooms ensures RoomOk(t, k, t.rooms[k]) {
      assert RoomOk(s, k, s.rooms[k]);
    }
  }

  /** `unsubscribe_lobbies` drops the caller's subscription, if any, and
      nothing else. */
  lemma UnsubscribeDrops(s: RegistryState, conn: ConnId)
    requires Inv(s)
    ensures var t := UnsubscribeStep(s, conn);
            && conn !in t.subscriptions
            && (forall c :: c != conn ==> (c in t.subscriptions <==> c in s.subscriptions))
            && (forall c :: c in t.subscriptions ==> t.subscriptions[c] == s.subscriptions[c])
            && t.rooms == s.rooms && t.peers == s.peers && t.roomOrder == s.roomOrder
            && t.nextPeerId == s.nextPeerId && t.nextConnectionId == s.nextConnectionId
            && Inv(t)
  {
    var t := UnsubscribeStep(s, conn);
    forall k | k in t.rooms ensures RoomOk(t, k, t.rooms[k]) {
      assert RoomOk(s, k, s.rooms[k]);
    }
  }
}
