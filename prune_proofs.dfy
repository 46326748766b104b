/** What the stale-room sweep guarantees: exactly the rooms idle for more
    than a minute are dropped, with their members' sessions, every
    subscriber hears one removal per dropped room in dict order, and the
    invariant holds. */
module PruneProofs {
  import opened Protocol
  import opened Lobbies
  import opened Rooms
  import opened RoomFacts

  /** A room survives the sweep exactly when it is not stale, and then
      unchanged; the order keeps the survivors in their old order. */
  lemma PruneRooms(s: RegistryState, now: int)
    requires Inv(s)
    ensures var t := PruneStep(s, now).state;
            && (forall k :: k in t.rooms <==> k in s.rooms && !IsStale(s.rooms[k], now))
            && (forall k :: k in t.rooms ==> t.rooms[k] == s.rooms[k])
            && t.roomOrder == Without(s.roomOrder, set k | k in s.rooms && IsStale(s.rooms[k], now))
            && t.subscriptions == s.subscriptions
            && t.nextPeerId == s.nextPeerId && t.nextConnectionId == s.nextConnectionId
  {
    var stale := StaleIds(s.roomOrder, s.rooms, now);
    assert (set k | k in stale) == (set k | k in s.rooms && IsStale(s.rooms[k], now));
  }

  /** A session survives the sweep exactly when its peer is not a member of
      a stale room. */
  lemma PruneSessions(s: RegistryState, now: int)
    requires Inv(s)
    ensures var t := PruneStep(s, now).state;
            forall p :: p in t.peers <==>
              p in s.peers && !(exists k :: k in s.rooms && IsStale(s.rooms[k], now) && p in s.rooms[k].peerIds)
    ensures var t := PruneStep(s, now).state;
            forall p :: p in t.peers ==> t.peers[p] == s.peers[p]
  {
  }

  /** The remove deltas a subscriber reads, one per id, in order. */
  function Removals(ids: seq<RoomId>): (ms: seq<Message>)
    ensures |ms| == |ids|
    ensures forall i :: 0 <= i < |ids| ==> ms[i] == LobbyRemove(ids[i])
  {
    if ids == [] then [] else Removals(ids[..|ids| - 1]) + [LobbyRemove(ids[|ids| - 1])]
  }

  /** After the sweep each subscriber hears `lobby_delta` remove for every
      dropped room, in order, and nothing else; sessions hear nothing. */
  lemma {:induction false} RemovalInbox(t: RegistryState, ids: seq<RoomId>, x: Recipient)
    requires forall k :: k in ids ==> k !in t.rooms
    ensures Inbox(RemovalDeltas(t, ids), x) == if x.Conn? && x.conn in t.subscriptions then Removals(ids) else []
  {
    if ids != [] {
      var init := ids[..|ids| - 1];
      var last := ids[|ids| - 1];
      assert forall k :: k in init ==> k in ids;
      RemovalInbox(t, init, x);
      InboxAppend(RemovalDeltas(t, init), LobbyDeltas(t, last), x);
      LobbyDeltasPerSubscriber(t, last, x);
      assert Get(t.rooms, last) == None;
    }
  }

  lemma PruneLobbyDeltas(s: RegistryState, now: int, x: Recipient)
    requires Inv(s)
    ensures var r := PruneStep(s, now);
            Inbox(r.out, x) ==
              if x.Conn? && x.conn in s.subscriptions then Removals(StaleIds(s.roomOrder, s.rooms, now)) else []
  {
    var stale := StaleIds(s.roomOrder, s.rooms, now);
    var t := PruneStep(s, now).state;
    RemovalInbox(t, stale, x);
  }

  lemma StaleIdsNoDup(order: seq<RoomId>, rooms: map<RoomId, RoomState>, now: int)
    requires NoDup(order)
    ensures NoDup(StaleIds(order, rooms, now))
  {
    if order != [] {
      StaleIdsNoDup(order[1..], rooms, now);
      var rest := StaleIds(order[1..], rooms, now);
      var head := if order[0] in rooms && IsStale(rooms[order[0]], now) then [order[0]] else [];
      assert order[0] !in order[1..] by {
        forall i | 0 <= i < |order[1..]| ensures order[1..][i] != order[0] {
          assert order[1..][i] == order[i + 1];
        }
      }
      forall i, j | 0 <= i < j < |head + rest| ensures (head + rest)[i] != (head + rest)[j] {
        if head != [] && i == 0 {
          assert (head + rest)[j] == rest[j - 1];
          assert rest[j - 1] in rest;
        }
      }
    }
  }

  lemma PrunePreservesInv(s: RegistryState, now: int)
    requires Inv(s)
    ensures Inv(PruneStep(s, now).state)
  {
    var t := PruneStep(s, now).state;
    var gone := set k | k in s.rooms && IsStale(s.rooms[k], now);
    PruneRooms(s, now);
    PruneSessions(s, now);
    WithoutKeepsNoDup(s.roomOrder, gone);
    forall k | k in t.rooms ensures RoomOk(t, k, t.rooms[k]) {
      assert RoomOk(s, k, s.rooms[k]);
      forall p | p in t.rooms[k].peerIds ensures p in t.peers {
        forall j | j in s.rooms && IsStale(s.rooms[j], now) ensures p !in s.rooms[j].peerIds {
          assert RoomOk(s, j, s.rooms[j]);
        }
      }
    }
  }

  /** Scanning the order piece by piece finds the same stale rooms. */
  lemma {:induction false} StaleIdsAppend(a: seq<RoomId>, b: seq<RoomId>, rooms: map<RoomId, RoomState>, now: int)
    ensures StaleIds(a + b, rooms, now) == StaleIds(a, rooms, now) + StaleIds(b, rooms, now)
  {
    if a == [] {
      assert a + b == b;
    } else {
      assert (a + b)[0] == a[0];
      assert (a + b)[1..] == a[1..] + b;
      StaleIdsAppend(a[1..], b, rooms, now);
    }
  }

  /** Dropping two key sets one after the other drops their union. */
  lemma {:induction false} WithoutTwice(order: seq<RoomId>, a: set<RoomId>, b: set<RoomId>)
    ensures Without(Without(order, a), b) == Without(order, a + b)
  {
    if order != [] {
      WithoutTwice(order[1..], a, b);
      var rest := Without(order[1..], a);
      if order[0] in a {
        assert Without(order, a) == rest;
      } else {
        assert Without(order, a) == [order[0]] + rest;
        assert ([order[0]] + rest)[0] == order[0];
        assert ([order[0]] + rest)[1..] == rest;
      }
    }
  }

  lemma {:induction false} WithoutNothing(order: seq<RoomId>)
    ensures Without(order, {}) == order
  {
    if order != [] {
      WithoutNothing(order[1..]);
    }
  }

  /** One more room of the order scanned. */
  lemma StaleIdsSnoc(order: seq<RoomId>, i: nat, rooms: map<RoomId, RoomState>, now: int)
    requires i < |order|
    ensures StaleIds(order[..i + 1], rooms, now)
         == StaleIds(order[..i], rooms, now)
            + (if order[i] in rooms && IsStale(rooms[order[i]], now) then [order[i]] else [])
  {
    assert order[..i + 1] == order[..i] + [order[i]];
    StaleIdsAppend(order[..i], [order[i]], rooms, now);
    assert [order[i]][1..] == [];
  }

  lemma MembersOfSnoc(rooms: map<RoomId, RoomState>, ids: seq<RoomId>, i: nat)
    requires i < |ids|
    ensures MembersOf(rooms, ids[..i + 1])
         == MembersOf(rooms, ids[..i]) + (if ids[i] in rooms then rooms[ids[i]].peerIds else {})
  {
    assert ids[..i + 1][..i] == ids[..i];
  }

  lemma RemovalDeltasSnoc(t: RegistryState, ids: seq<RoomId>, i: nat)
    requires i < |ids|
    ensures RemovalDeltas(t, ids[..i + 1]) == RemovalDeltas(t, ids[..i]) + LobbyDeltas(t, ids[i])
  {
    assert ids[..i + 1][..i] == ids[..i];
  }

  /** Walking a duplicate-free sequence meets each element for the first time. */
  lemma PrefixStep(ids: seq<RoomId>, i: nat)
    requires NoDup(ids) && i < |ids|
    ensures ids[i] !in ids[..i]
    ensures forall k :: k in ids[..i + 1] <==> k in ids[..i] || k == ids[i]
  {
    forall j | 0 <= j < i ensures ids[..i][j] != ids[i] {
      assert ids[..i][j] == ids[j];
    }
    assert ids[..i + 1] == ids[..i] + [ids[i]];
  }

  /** The registry after popping the rooms `gone` = `ids[..i]` of `s`. */
  function PoppedPrefix(s: RegistryState, ids: seq<RoomId>, i: nat, gone: set<RoomId>): RegistryState
    requires i <= |ids|
  {
    s.(rooms := s.rooms - gone, roomOrder := Without(s.roomOrder, gone),
       peers := s.peers - MembersOf(s.rooms, ids[..i]))
  }

  /** Popping room `ids[i]`, with its members' sessions, extends the prefix
      popped by one. */
  lemma PopStep(s: RegistryState, ids: seq<RoomId>, i: nat, gone: set<RoomId>)
    requires NoDup(ids) && i < |ids| && ids[i] in s.rooms
    requires forall k :: k in gone <==> k in ids[..i]
    ensures ids[i] !in gone && ids[i] in PoppedPrefix(s, ids, i, gone).rooms
    ensures forall k :: k in gone + {ids[i]} <==> k in ids[..i + 1]
    ensures var t := PoppedPrefix(s, ids, i, gone);
            t.(rooms := t.rooms - {ids[i]}, roomOrder := Without(t.roomOrder, {ids[i]}),
               peers := t.peers - t.rooms[ids[i]].peerIds)
            == PoppedPrefix(s, ids, i + 1, gone + {ids[i]})
  {
    PrefixStep(ids, i);
    WithoutTwice(s.roomOrder, gone, {ids[i]});
    MembersOfSnoc(s.rooms, ids, i);
    assert (s.rooms - gone) - {ids[i]} == s.rooms - (gone + {ids[i]});
  }
}
