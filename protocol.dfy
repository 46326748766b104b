/** Wire vocabulary of the signaling server: identifiers, inbound events,
    outbound messages, and the values the room registry stores. */
module Protocol {

  datatype Option<T> = None | Some(value: T)

  /** Peer ids and connection ids come from two counters that start at 1. */
  type PeerId = int
  type ConnId = int
  type RoomId = string

  /** A JSON value the server forwards without looking into it
      (`sdp`, `ice`, the configured ICE-server list). */
  type Json = string

  datatype Topology = Mesh | ServerAuthoritative

  /** The fields of one inbound JSON object after the decoder applied the
      defaults and coercions of the handlers: `str(room_id)` (default ""),
      `bool(is_host_intent)`, `str(topology)` (default "mesh"),
      `int(capacity)` (default 2), `tags` and `filter_tags` (None when the
      value is not a list; items already converted with `str`),
      `int(target_id)` (default 0), and `sdp` / `ice` when present. */
  datatype Fields = Fields(
    roomId: string,
    isHostIntent: bool,
    topology: string,
    capacity: int,
    tags: Option<seq<string>>,
    filterTags: Option<seq<string>>,
    targetId: int,
    sdp: Option<Json>,
    ice: Option<Json>)

  /** What one websocket delivers: a decoded object with its `type` string,
      or the end of the connection. */
  datatype Event = Received(kind: string, fields: Fields) | Closed

  /** One lobby record as `room_to_lobby` builds it. */
  datatype Lobby = Lobby(roomId: RoomId, topology: Topology, players: nat, capacity: int, tags: seq<string>)

  /** Server-to-client messages; `LobbyUpsert` and `LobbyRemove` are the two
      forms of `lobby_delta`. */
  datatype Message =
    | IdAssigned(peerId: PeerId, hostId: PeerId, topology: Topology, capacity: int, iceServers: Json)
    | PeerJoined(peerId: PeerId)
    | PeerLeft(peerId: PeerId)
    | Signal(fromId: PeerId, sdp: Option<Json>, ice: Option<Json>)
    | MatchReady
    | RoomClosed
    | LobbyList(lobbies: seq<Lobby>)
    | LobbySnapshot(lobbies: seq<Lobby>)
    | LobbyUpsert(roomId: RoomId, lobby: Lobby)
    | LobbyRemove(roomId: RoomId)
    | Error(message: string)

  /** `Peer(p)` is the websocket stored in the session of peer `p`;
      `Conn(c)` is the websocket of connection `c` (the caller of a handler
      or a lobby subscriber). */
  datatype Recipient = Peer(peer: PeerId) | Conn(conn: ConnId)

  /** One message handed to every recipient in `to`. Sends to different
      websockets are independent, so a fan-out carries a set. */
  datatype Outbound = Outbound(to: set<Recipient>, msg: Message)

  function Reply(c: ConnId, m: Message): seq<Outbound>
  {
    [Outbound({Conn(c)}, m)]
  }

  /** A fan-out that sends nothing when there is nobody to send to. */
  function Fanout(to: set<Recipient>, m: Message): (out: seq<Outbound>)
    ensures forall o :: o in out ==> o.msg == m && o.to == to
    ensures out == [] <==> to == {}
  {
    if to == {} then [] else [Outbound(to, m)]
  }

  /** The messages recipient `r` receives from `out`, in order. */
  function Inbox(out: seq<Outbound>, r: Recipient): (ms: seq<Message>)
    ensures |ms| <= |out|
  {
    if out == [] then []
    else (if r in out[0].to then [out[0].msg] else []) + Inbox(out[1..], r)
  }

  lemma {:induction false} InboxAppend(a: seq<Outbound>, b: seq<Outbound>, r: Recipient)
    ensures Inbox(a + b, r) == Inbox(a, r) + Inbox(b, r)
  {
    if a == [] {
      assert a + b == b;
    } else {
      var head := if r in a[0].to then [a[0].msg] else [];
      assert (a + b)[0] == a[0];
      assert (a + b)[1..] == a[1..] + b;
      InboxAppend(a[1..], b, r);
      calc {
        Inbox(a + b, r);
        head + Inbox(a[1..] + b, r);
        head + (Inbox(a[1..], r) + Inbox(b, r));
        (head + Inbox(a[1..], r)) + Inbox(b, r);
      }
    }
  }

  lemma InboxFanout(to: set<Recipient>, m: Message, r: Recipient)
    ensures Inbox(Fanout(to, m), r) == if r in to then [m] else []
  {
    if to != {} {
      assert Fanout(to, m)[1..] == [];
    }
  }

  lemma InboxReply(c: ConnId, m: Message, r: Recipient)
    ensures Inbox(Reply(c, m), r) == if r == Conn(c) then [m] else []
  {
    assert Reply(c, m)[1..] == [];
  }

  /** A room as the registry stores it (the fields of the `Room` dataclass). */
  datatype RoomState = RoomState(
    roomId: RoomId,
    hostId: PeerId,
    topology: Topology,
    capacity: int,
    isSealed: bool,
    peerIds: set<PeerId>,
    connectedAck: set<PeerId>,
    tags: seq<string>,
    lastActivity: int)

  /** `Room.is_full`. */
  predicate IsFull(r: RoomState)
  {
    r.capacity > 0 && |r.peerIds| >= r.capacity
  }

  datatype PeerSession = PeerSession(peerId: PeerId, conn: ConnId, roomId: RoomId, joinedAt: int)

  datatype LobbySubscription = LobbySubscription(connectionId: ConnId, filterTags: set<string>)

  /** Everything the `Registry` holds. `roomOrder` is the insertion order of
      the keys of `rooms`, which a Python dict keeps and which the lobby
      snapshot and the prune sweep follow. */
  datatype RegistryState = RegistryState(
    rooms: map<RoomId, RoomState>,
    roomOrder: seq<RoomId>,
    peers: map<PeerId, PeerSession>,
    subscriptions: map<ConnId, LobbySubscription>,
    nextPeerId: int,
    nextConnectionId: int)

  /** The result of a handler that does not bind a peer id. */
  datatype Step = Step(state: RegistryState, out: seq<Outbound>)
}
