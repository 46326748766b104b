/** What the lobby shows: lobby records, tag filters, visibility, snapshots
    and the per-subscriber deltas sent when one room changes. */
module Lobbies {
  import opened Protocol
  import opened Text

  /** `room_to_lobby`: the public record of a room. */
  function RoomToLobby(room: RoomState): Lobby
  {
    Lobby(room.roomId, room.topology, |room.peerIds|, room.capacity, room.tags)
  }

  /** `_normalize_filter_tags`: a non-list gives no tags; otherwise every
      item stripped, dropping the ones that strip to "". */
  function NormalizeFilterTags(raw: Option<seq<string>>): set<string>
  {
    if raw.None? then {} else set x | x in raw.value && Strip(x) != [] :: Strip(x)
  }

  /** The normalised filter holds exactly the stripped forms of the
      non-blank items, and none of them is empty or starts or ends with
      whitespace. */
  lemma NormalizedTags(raw: Option<seq<string>>)
    ensures raw.None? ==> NormalizeFilterTags(raw) == {}
    ensures forall t :: t in NormalizeFilterTags(raw) ==> t != [] && !IsSpace(t[0]) && !IsSpace(t[|t| - 1])
    ensures raw.Some? ==> forall x :: x in raw.value && !IsBlank(x) ==> Strip(x) in NormalizeFilterTags(raw)
    ensures forall t :: t in NormalizeFilterTags(raw) ==> raw.Some? && exists x :: x in raw.value && Strip(x) == t
  {
    NormalizedTagsTrimmed(raw);
    if raw.Some? {
      NormalizedTagsKeep(raw.value);
    }
  }

  lemma NormalizedTagsTrimmed(raw: Option<seq<string>>)
    ensures forall t :: t in NormalizeFilterTags(raw) ==> t != [] && !IsSpace(t[0]) && !IsSpace(t[|t| - 1])
  {
    forall t | t in NormalizeFilterTags(raw) ensures t != [] && !IsSpace(t[0]) && !IsSpace(t[|t| - 1]) {
      var x :| x in raw.value && Strip(x) != [] && Strip(x) == t;
    }
  }

  lemma NormalizedTagsKeep(items: seq<string>)
    ensures forall x :: x in items && !IsBlank(x) ==> Strip(x) in NormalizeFilterTags(Some(items))
  {
    forall x | x in items && !IsBlank(x) ensures Strip(x) in NormalizeFilterTags(Some(items)) {
      StripEmptyIffBlank(x);
    }
  }

  function TagSet(tags: seq<string>): set<string>
  {
    set t | t in tags
  }

  /** `_is_room_visible_to_filter`: an empty filter is a subset of any tag
      set, so the special case for it changes nothing. */
  predicate IsVisible(room: RoomState, filterTags: set<string>): (v: bool)
    ensures v <==> !room.isSealed && !IsFull(room) && filterTags <= TagSet(room.tags)
  {
    if room.isSealed || IsFull(room) then false
    else if filterTags != {} && !(filterTags <= TagSet(room.tags)) then false
    else true
  }

  /** `_build_lobby_snapshot`: the visible rooms, in order, as lobby records. */
  function BuildLobbySnapshot(rooms: seq<RoomState>, filterTags: set<string>): (lobbies: seq<Lobby>)
    ensures |lobbies| <= |rooms|
  {
    if rooms == [] then []
    else
      (if IsVisible(rooms[0], filterTags) then [RoomToLobby(rooms[0])] else [])
      + BuildLobbySnapshot(rooms[1..], filterTags)
  }

  /** The snapshot of a concatenation is the concatenation of the snapshots:
      together with SnapshotSingleton this says the snapshot is exactly the
      order-preserving filter of the rooms mapped through RoomToLobby. */
  lemma {:induction false} SnapshotAppend(a: seq<RoomState>, b: seq<RoomState>, f: set<string>)
    ensures BuildLobbySnapshot(a + b, f) == BuildLobbySnapshot(a, f) + BuildLobbySnapshot(b, f)
  {
    if a == [] {
      assert a + b == b;
    } else {
      var head := if IsVisible(a[0], f) then [RoomToLobby(a[0])] else [];
      assert (a + b)[0] == a[0];
      assert (a + b)[1..] == a[1..] + b;
      SnapshotAppend(a[1..], b, f);
      calc {
        BuildLobbySnapshot(a + b, f);
        head + BuildLobbySnapshot(a[1..] + b, f);
        head + (BuildLobbySnapshot(a[1..], f) + BuildLobbySnapshot(b, f));
        (head + BuildLobbySnapshot(a[1..], f)) + BuildLobbySnapshot(b, f);
      }
    }
  }

  lemma SnapshotSingleton(room: RoomState, f: set<string>)
    ensures BuildLobbySnapshot([room], f) == if IsVisible(room, f) then [RoomToLobby(room)] else []
  {
    assert [room][1..] == [];
  }

  /** A record is in the snapshot exactly when it is the record of some
      visible room of the list. */
  lemma {:induction false} SnapshotMembers(rooms: seq<RoomState>, f: set<string>, l: Lobby)
    ensures l in BuildLobbySnapshot(rooms, f) <==>
            exists i :: 0 <= i < |rooms| && IsVisible(rooms[i], f) && RoomToLobby(rooms[i]) == l
  {
    if rooms != [] {
      SnapshotMembers(rooms[1..], f, l);
      if l in BuildLobbySnapshot(rooms[1..], f) {
        var i :| 0 <= i < |rooms[1..]| && IsVisible(rooms[1..][i], f) && RoomToLobby(rooms[1..][i]) == l;
        assert rooms[i + 1] == rooms[1..][i];
      }
      if exists i :: 0 <= i < |rooms| && IsVisible(rooms[i], f) && RoomToLobby(rooms[i]) == l {
        var i :| 0 <= i < |rooms| && IsVisible(rooms[i], f) && RoomToLobby(rooms[i]) == l;
        if i > 0 {
          assert rooms[1..][i - 1] == rooms[i];
        }
      }
    }
  }

  function Get(rooms: map<RoomId, RoomState>, k: RoomId): Option<RoomState>
  {
    if k in rooms then Some(rooms[k]) else None
  }

  /** The payload one subscriber with filter `f` receives when room `roomId`
      changes (the choice in `notify_lobby_room_changed`). */
  function DeltaFor(room: Option<RoomState>, roomId: RoomId, f: set<string>): (m: Message)
    ensures m.LobbyUpsert? <==> room.Some? && IsVisible(room.value, f)
    ensures m.LobbyUpsert? ==> m.roomId == room.value.roomId && m.lobby == RoomToLobby(room.value)
    ensures m.LobbyRemove? || m.LobbyUpsert?
    ensures m.LobbyRemove? ==> m.roomId == roomId
  {
    if room.Some? && IsVisible(room.value, f) then LobbyUpsert(room.value.roomId, RoomToLobby(room.value))
    else LobbyRemove(roomId)
  }

  /** Subscribers that see room `roomId`, and those that do not. */
  function UpsertTargets(s: RegistryState, roomId: RoomId): set<Recipient>
  {
    set c | c in s.subscriptions && roomId in s.rooms
                                  && IsVisible(s.rooms[roomId], s.subscriptions[c].filterTags) :: Conn(c)
  }

  function RemoveTargets(s: RegistryState, roomId: RoomId): set<Recipient>
  {
    set c | c in s.subscriptions && !(roomId in s.rooms
                                  && IsVisible(s.rooms[roomId], s.subscriptions[c].filterTags)) :: Conn(c)
  }

  /** `notify_lobby_room_changed(room_id)` on the state after a change. */
  function LobbyDeltas(s: RegistryState, roomId: RoomId): seq<Outbound>
  {
    (if roomId in s.rooms
     then Fanout(UpsertTargets(s, roomId), LobbyUpsert(s.rooms[roomId].roomId, RoomToLobby(s.rooms[roomId])))
     else [])
    + Fanout(RemoveTargets(s, roomId), LobbyRemove(roomId))
  }

  /** Every subscriber receives exactly one delta for the room (the one its
      filter selects), and no other connection receives any. */
  lemma LobbyDeltasPerSubscriber(s: RegistryState, roomId: RoomId, r: Recipient)
    ensures Inbox(LobbyDeltas(s, roomId), r) ==
            if r.Conn? && r.conn in s.subscriptions
            then [DeltaFor(Get(s.rooms, roomId), roomId, s.subscriptions[r.conn].filterTags)]
            else []
  {
    var up := if roomId in s.rooms
              then Fanout(UpsertTargets(s, roomId), LobbyUpsert(s.rooms[roomId].roomId, RoomToLobby(s.rooms[roomId])))
              else [];
    var rm := Fanout(RemoveTargets(s, roomId), LobbyRemove(roomId));
    InboxAppend(up, rm, r);
    if roomId in s.rooms {
      InboxFanout(UpsertTargets(s, roomId), LobbyUpsert(s.rooms[roomId].roomId, RoomToLobby(s.rooms[roomId])), r);
    }
    InboxFanout(RemoveTargets(s, roomId), LobbyRemove(roomId), r);
  }

  /** A lobby cache as a subscriber keeps it, keyed by room id. */
  function ApplyDelta(cache: map<RoomId, Lobby>, m: Message): map<RoomId, Lobby>
  {
    match m
    case LobbyUpsert(id, l) => cache[id := l]
    case LobbyRemove(id) => cache - {id}
    case _ => cache
  }

  function ApplyAll(cache: map<RoomId, Lobby>, ms: seq<Message>): map<RoomId, Lobby>
    decreases |ms|
  {
    if ms == [] then cache else ApplyAll(ApplyDelta(cache, ms[0]), ms[1..])
  }

  /** The listing a subscriber with filter `f` should hold for `rooms`. */
  function LobbyView(rooms: map<RoomId, RoomState>, f: set<string>): map<RoomId, Lobby>
  {
    map k | k in rooms && IsVisible(rooms[k], f) :: RoomToLobby(rooms[k])
  }

  /** When the rooms change at key `k` only, the delta for `k` carries the
      view of the old rooms to the view of the new ones. */
  lemma DeltaKeepsViewConsistent(rooms: map<RoomId, RoomState>, rooms': map<RoomId, RoomState>, k: RoomId, f: set<string>)
    requires forall j :: j != k ==> (j in rooms <==> j in rooms')
    requires forall j :: j != k && j in rooms ==> rooms[j] == rooms'[j]
    requires k in rooms' ==> rooms'[k].roomId == k
    ensures ApplyDelta(LobbyView(rooms, f), DeltaFor(Get(rooms', k), k, f)) == LobbyView(rooms', f)
  {
    var after := ApplyDelta(LobbyView(rooms, f), DeltaFor(Get(rooms', k), k, f));
    forall j ensures (j in after <==> j in LobbyView(rooms', f))
                  && (j in after ==> after[j] == LobbyView(rooms', f)[j]) {
      if j != k {
        assert j in rooms ==> rooms[j] == rooms'[j];
      }
    }
  }

  /** A change that leaves every lobby record and visibility as it was
      leaves every view as it was. */
  lemma ViewUnchanged(rooms: map<RoomId, RoomState>, rooms': map<RoomId, RoomState>, f: set<string>)
    requires rooms.Keys == rooms'.Keys
    requires forall j :: j in rooms ==>
               RoomToLobby(rooms[j]) == RoomToLobby(rooms'[j]) && rooms[j].isSealed == rooms'[j].isSealed
    ensures LobbyView(rooms, f) == LobbyView(rooms', f)
  {
    forall j | j in rooms ensures IsVisible(rooms[j], f) == IsVisible(rooms'[j], f) {
      assert |rooms[j].peerIds| == RoomToLobby(rooms[j]).players;
      assert |rooms'[j].peerIds| == RoomToLobby(rooms'[j]).players;
    }
  }
}
