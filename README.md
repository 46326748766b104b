# Signaling server room registry, in Dafny

This project models the core of the Python WebRTC signaling server in
`server/main.py` and proves properties of it. That core is the room
registry and the handlers that change it:

- `handle_join`, `handle_signal`, `handle_peer_connected`,
  `maybe_emit_match_ready`, `handle_disconnect` and one pass of the
  `prune_stale_rooms` sweep;
- the lobby helpers: `room_to_lobby`, `_normalize_filter_tags`,
  `_is_room_visible_to_filter`, `_build_lobby_snapshot`, and the choice
  between an upsert and a remove in `notify_lobby_room_changed`;
- the message dispatch of `websocket_endpoint`: which message types need a
  joined peer, and what happens when the socket closes.

## Structure

The model has two layers.

The first layer is a state machine on values:

- `protocol.dfy` (module `Protocol`): the wire vocabulary. It holds the
  inbound fields, the outbound messages, and recipients (`Peer(p)` is the
  websocket of peer `p`'s session; `Conn(c)` is connection `c`). It also
  holds the registry as a value, `RegistryState`. An outbound message is
  handed to a *set* of recipients. `Inbox(out, r)` is the sequence one
  recipient receives. A socket that is both a connection and a peer's
  session appears as two recipients. So the order of what it receives
  under both names (its `id_assigned` before its `match_ready`) is read
  from `out`, not from one `Inbox`.
- `text.dfy` (module `Text`): `str.strip()` over Python's whitespace
  characters.
- `lobby.dfy` (module `Lobbies`): the lobby record, the tag filter,
  visibility, the snapshot and the per-subscriber delta.
- `rooms.dfy` (module `Rooms`):
  - one step function per handler, from the registry before the handler
    to the registry after it, together with the messages it sends;
  - the dispatch step of the websocket loop;
  - the registry invariant `Inv`.
- The files `*_proofs.dfy` and `room_facts.dfy` hold the lemmas about these
  steps.
- `dispatch_proofs.dfy` also closes the whole server as a transition
  system. Its actions are: accept a socket, deliver an event to an open
  socket, or run the sweep. It proves that `Inv` holds in every reachable
  registry of this model, whose `peer_connected` is the corrected
  member-only ack (see Findings). With the ack as written, an orphan's ack
  breaks `Inv` (`AckFinding.OrphanAckBreaksInv`).

The second layer is the imperative registry, `server.dfy` (module
`Server`):

- A `Room` class has the fields the handlers update in place (`peerIds`,
  `connectedAck`, `isSealed`, `lastActivity`).
- A `Registry` class holds:
  - the room dict, with its insertion order kept in `roomOrder`;
  - the sessions and the lobby subscriptions;
  - the two id counters.
- Each handler is a method. Its `ensures` states that the new registry
  (`Abs()`) and the messages sent are exactly what the `Rooms` step
  function gives for the old registry.
- The loops of the source are `while` loops with invariants:
  - the recipient selection of `broadcast_room`;
  - the subscriber loop of `notify_lobby_room_changed`;
  - the `peer_joined` loop of `handle_join`;
  - the stale-room comprehension, the pop loop and the notify loop of the
    sweep.

Each handler runs under `registry.lock`, so each one is modelled as one
atomic step. The messages a handler sends after it releases the lock are
computed on the registry as the handler left it. `time.time()` is an
integer parameter `now`. The configured ICE-server list is an opaque
parameter `ice`.

The model follows what the code does, in particular:

- the error for a full or sealed room is `room_unavailable`;
- the requested capacity is raised to at least 2;
- a host disconnect closes the room under both topologies;
- `match_ready` is gated on `peer_connected` acks, not on sealing (the
  model counts members' acks only; see Findings);
- under `server_authoritative` only the host hears `peer_joined`;
- a failed join neither closes the socket nor binds it;
- a second successful join on one socket rebinds it, and the old session
  stays in the registry.

## Model

| member | source | states |
|---|---|---|
| Text.StripEmptyIffBlank | server/main.py:338-353 | A room id strips to the empty string exactly when every character is whitespace, so `room_id_required` is the answer to every blank id. |
| Text.StripIdempotent | server/main.py:171-174 | Stripping a stripped string changes nothing. |
| Lobbies.NormalizedTags | server/main.py:171-174 | A non-list filter gives no tags. Every tag is non-empty and trimmed at both ends. The tags are exactly the stripped forms of the items that are not blank. |
| Lobbies.IsVisible | server/main.py:177-182 | A room is visible to a filter exactly when it is not sealed, not full, and the filter is a subset of its tags. The special case for an empty filter changes nothing. |
| Lobbies.SnapshotMembers | server/main.py:185-192 | A lobby record is in the snapshot exactly when it is the record of some visible room of the list. |
| Lobbies.SnapshotAppend | server/main.py:185-192 | The snapshot of two lists one after the other is the two snapshots one after the other, so the snapshot keeps the room order. |
| Lobbies.SnapshotSingleton | server/main.py:161-168 | The snapshot of one room is its record (with players = its member count) if it is visible, else nothing. |
| Lobbies.DeltaFor | server/main.py:495-512 | A subscriber gets an upsert exactly when the room exists and is visible to its filter. An upsert carries the room's id and full lobby record; otherwise it is a remove carrying only the id. |
| Lobbies.LobbyDeltasPerSubscriber | server/main.py:487-513 | After a room changes, every subscriber receives exactly one delta for it, the one its filter selects. No other recipient receives anything. |
| Lobbies.DeltaKeepsViewConsistent | server/main.py:495-512 | When the rooms change only at one id, applying that id's delta to a subscriber's old view of the visible rooms gives its view of the new rooms. |
| Lobbies.ViewUnchanged | server/main.py:88-89 | A change that keeps every room's lobby record and seal, such as an activity update, keeps every subscriber's view. |
| Rooms.ParseTopology | server/main.py:340-344 | The topology is `server_authoritative` exactly for that string; anything else is `mesh`. |
| Rooms.EffectiveCapacity | server/main.py:345-346 | The capacity is at least 2 and at least the requested one, and it is one of these two. This is `max(2, requested)`. |
| Rooms.Without | server/main.py:622-623 | Popping ids from the dict keeps exactly the other ids. The order is kept by definition: the function filters the order front to back. |
| Rooms.StaleIds | server/main.py:666-670 | The sweep selects exactly the stored rooms idle for more than 60 seconds. They come in dict order by definition, since the function walks the order front to back. |
| Rooms.MembersOf | server/main.py:672-675 | The sessions the sweep pops are exactly those of the members of the stale rooms. |
| RoomFacts.InitInv | server/main.py:97-103 | The empty registry with both counters at 1 satisfies the invariant. |
| RoomFacts.TouchInv | server/main.py:88-89 | Updating a room's activity time keeps the invariant. |
| RoomFacts.MatchReadyState | server/main.py:585-602 | `maybe_emit_match_ready` changes at most the room's activity time. |
| RoomFacts.MatchReadyInv | server/main.py:585-602 | `maybe_emit_match_ready` keeps the invariant. |
| RoomFacts.MatchReadyToPeersOnly | server/main.py:585-602 | `match_ready` goes only to peers' sessions, never to a bare connection. |
| RoomFacts.BroadcastReachesMembers | server/main.py:140-158 | Under the invariant, a room broadcast reaches exactly the chosen members, since every member has a session. |
| JoinProofs.JoinFailureCases | server/main.py:352-395 | A join gets a peer id exactly when it is admissible. Each refusal sends the right error: `room_id_required`, `room_not_found`, `topology_mismatch`, `room_unavailable` or `host_already_exists`. A refusal leaves the registry as it was, except that the peer counter moves for every refusal but `room_id_required`. |
| JoinProofs.JoinRefusalIsOneError | server/main.py:352-395 | Every refused join sends exactly one message: an error to the joining connection. Rooms, sessions and subscriptions are unchanged. |
| JoinProofs.AdmitShape | server/main.py:356-448 | An admissible join binds the next peer id. It leads to the registry after the join and sends the join notices and nothing else. |
| JoinProofs.NoReadyOnAdmit | server/main.py:397-446 | Once the room admits a new peer, the `maybe_emit_match_ready` call of the join sends nothing, since the newcomer has not acked. |
| JoinProofs.JoinSuccess | server/main.py:357-404 | After a successful join: the new peer id is above every id in use, and the counter moved past it. The peer is added to the members and a session bound to the room is stored. A new room has the caller as host, with the clamped capacity, the parsed topology and the given tags. The room is sealed exactly when it is at capacity. No other room changes. |
| JoinProofs.AfterJoinParts | server/main.py:397-404 | A successful join writes: the grown room, the new session, the room id at the end of the order if the room is new, and the counter. Nothing else. |
| JoinProofs.JoinNoticesInbox | server/main.py:416-443 | What each recipient gets from a successful join. Subscribers get the room's lobby delta. The joiner gets `id_assigned` with the room's host, topology, capacity and ICE list. Each selected member with a session gets `peer_joined`. |
| JoinProofs.JoinerReply | server/main.py:416-428 | The joining connection receives its lobby delta only if it is subscribed, followed by `id_assigned` with the room's host, topology and capacity. |
| JoinProofs.JoinerHearsNothing | server/main.py:405-443 | The joiner's new session never receives its own `peer_joined`. |
| JoinProofs.JoinPeerJoinedFanout | server/main.py:405-443 | Under `mesh`, `peer_joined` goes to every member already in the room. Under `server_authoritative` it goes to the host only, when the host was already a member. Nobody else gets it. |
| JoinProofs.JoinNeverMatchReady | server/main.py:445-446 | No join, successful or not, sends `match_ready`. |
| JoinProofs.JoinPreservesInv | server/main.py:337-448 | Every join keeps the registry invariant. |
| JoinProofs.AfterJoinInv | server/main.py:397-404 | A successful join keeps the registry invariant. |
| SignalProofs.SignalRelayed | server/main.py:522-561 | A signal is relayed exactly when the target id is not 0 and sender and target have sessions naming the same room id, and a room with that id still exists. The relayed message goes only to the target and carries the sender's id with the sender's `sdp` and `ice`. At most one message is sent. |
| SignalProofs.SignalErrors | server/main.py:523-546 | Every other message goes back to the sender, as one of exactly these two errors. `target_id_required` is sent exactly for target 0 from a sender with a session. `cross_room_signal_blocked` is sent exactly when both have sessions in different rooms. |
| SignalProofs.SignalDropped | server/main.py:522-561 | Nothing at all is sent exactly when the signal is dropped silently. That happens for target 0 from a sender without a session, for an unknown sender or target, and for a shared room that no longer exists. |
| SignalProofs.SignalOnlyTouches | server/main.py:548-551 | A signal changes nothing but one room's activity time, and only that of the sender's room on a relay. |
| SignalProofs.SignalPreservesInv | server/main.py:522-561 | A signal keeps the registry invariant. |
| AckProofs.MatchReadyOnlyWhenAllAcked | server/main.py:585-602 | Under the invariant, `match_ready` is sent only for a full room in which every member has acked. |
| AckProofs.MatchReadyReachesMembers | server/main.py:585-602 | Each peer receives `match_ready` exactly when it is a member of a full room whose members have all acked. |
| AckProofs.PeerConnectedAcks | server/main.py:564-575 | `peer_connected` adds the sender to the acks of its own room, and only when it is a member of that room. Otherwise it only updates that room's activity time. |
| AckProofs.PeerConnectedPreservesInv | server/main.py:564-582 | `peer_connected` keeps the invariant, including that the acked peers are members. |
| AckProofs.PeerConnectedMatchReady | server/main.py:564-582 | After an ack, a peer receives `match_ready` exactly when it is a member, the room is full, and every member has now acked. |
| AckProofs.PeerConnectedToMembersOnly | server/main.py:564-602 | `peer_connected` sends nothing to bare connections. |
| DisconnectProofs.DisconnectUnknown | server/main.py:607-609 | Disconnecting a peer without a session changes nothing and sends nothing. |
| DisconnectProofs.DisconnectState | server/main.py:605-627 | The session is gone. If the peer was host, or the room is now empty, the room is removed from the dict and the order. Otherwise the room loses the peer's membership and ack, is unsealed and is touched. Nothing else changes. |
| DisconnectProofs.DisconnectVanishedRoom | server/main.py:610-612 | When the session names a room that no longer exists, the disconnect sends nothing at all: no leave notice and no lobby delta. |
| DisconnectProofs.DisconnectNotices | server/main.py:635-638 | Every remaining member hears `room_closed` when the host left, and `peer_left` with the peer's id otherwise. Nobody else hears either. |
| DisconnectProofs.DisconnectLobbyDelta | server/main.py:640 | Every subscriber receives the delta its filter selects for the room after the disconnect. |
| DisconnectProofs.DisconnectPreservesInv | server/main.py:605-640 | A disconnect keeps the registry invariant. |
| LobbyProofs.RoomsAlongMembers | server/main.py:453-456 | The listed rooms are exactly the values of the dict. |
| LobbyProofs.SnapshotShowsVisibleRooms | server/main.py:451-461 | A record is in the registry's snapshot exactly when it is the record of a stored room visible to the filter. |
| LobbyProofs.ListLobbiesReplies | server/main.py:451-461 | `list_lobbies` sends the caller `lobby_list` and then `lobby_snapshot`, both with the same snapshot, and sends nothing to anyone else. It changes nothing. |
| LobbyProofs.SubscribeRegisters | server/main.py:464-479 | Subscribing stores the normalised filter under the connection and changes nothing else. It replies with the snapshot for that filter. |
| LobbyProofs.SubscribePreservesInv | server/main.py:464-479 | Subscribing an allocated connection keeps the invariant. |
| LobbyProofs.UnsubscribeDrops | server/main.py:482-484 | Unsubscribing removes exactly that connection's subscription, whether or not it had one. Every other subscription keeps its filter, and the rooms, sessions, room order and both counters are unchanged. The invariant is kept. |
| PruneProofs.PruneRooms | server/main.py:659-676 | The sweep keeps exactly the rooms that are not stale, each unchanged, and removes the stale ones from the order. |
| PruneProofs.PruneSessions | server/main.py:672-675 | The sweep keeps exactly the sessions of peers that belong to no stale room, each unchanged. |
| PruneProofs.PruneLobbyDeltas | server/main.py:683-684 | Each subscriber receives one remove per pruned room, in dict order. Nobody else receives anything. |
| PruneProofs.RemovalInbox | server/main.py:683-684 | For rooms that are gone, the notify loop gives each subscriber exactly the removes for those ids, in order. |
| PruneProofs.StaleIdsNoDup | server/main.py:666-670 | The list of stale ids has no repeats. |
| PruneProofs.PrunePreservesInv | server/main.py:659-684 | The sweep keeps the registry invariant. |
| DispatchProofs.LobbyKindsNeedNoJoin | server/main.py:256-266 | The three lobby message types do the same with or without a joined peer, and never change the binding. |
| DispatchProofs.UnboundRefused | server/main.py:268-270 | Any other type except `join`, on a socket with no peer, changes nothing and gets `join_required`. |
| DispatchProofs.UnknownTypeRefused | server/main.py:272-277 | A type the server does not know, from a joined socket, changes nothing and gets `unknown_message_type:` followed by the type. |
| DispatchProofs.BindingOnlyByJoin | server/main.py:250-254 | For a bound id that was handed out earlier, the bound peer changes exactly when the event is a join that passes every check, and then to the newly allocated id. The old session then stays in the registry. |
| DispatchProofs.CloseCleansUp | server/main.py:279-296 | After the socket closes, its subscription is gone and so is the session of its bound peer. |
| DispatchProofs.AcceptFresh | server/main.py:238-241 | An accepted socket gets a connection id that no session or subscription uses, and the invariant still holds. |
| DispatchProofs.DispatchPreservesInv | server/main.py:243-296 | Every event on an accepted socket keeps the registry invariant. |
| DispatchProofs.DispatchKeepsConnectionCounter | server/main.py:240 | Only accepting a socket moves the connection counter. |
| DispatchProofs.ApplyPreservesInv | server/main.py:236-296 | Accepting a socket, delivering an event to it, or running the sweep keeps the invariant of the whole server. |
| DispatchProofs.ReachableInv | server/main.py:236-296 | Every run of actions from a good state ends in a good state. |
| DispatchProofs.StartInv | server/main.py:97-103 | Every state reachable from server start satisfies the invariant. |
| AckFinding.PeerConnectedAsWritten | server/main.py:564-582 | `handle_peer_connected` as written: the sender is added to the acks of whatever room its session names, member or not. |
| AckFinding.OrphanAckFiresMatchReady | server/main.py:564-602 | As written, in a room that reuses a closed room's id, an ack from an orphan session and one from the host make `match_ready` reach a member that never acked. |
| AckFinding.MemberAckWaitsForAll | server/main.py:564-602 | With the ack restricted to members, the same two acks send that member nothing. |
| AckFinding.OrphanAckBreaksInv | server/main.py:564-582 | As written, in a registry that satisfies the invariant, one orphan ack leaves an ack from a non-member, so the invariant fails. |
| AckFinding.OrphanSignalsReusedRoom | server/main.py:528-561 | An orphan and a member of the room that reuses its room id signal each other in both directions, and each relay touches that room's activity time. |
| AckFinding.OrphanAcksFireOnJoin | server/main.py:445-446 | As written, once an orphan and the new host have acked a room of one member, the join that fills it sends `match_ready` to the joiner, which never acked. |
| AckFinding.OrphanAckTrace | server/main.py:337-640 | The run (host joins, guest joins, host leaves, new host and guest join the same id, orphan and new host ack) starts in a good state. It delivers `match_ready` to the second guest as written, and not with member-only acks. |
| Server.Room.constructor | server/main.py:76-86 | A new room has the given id, host, topology, capacity and tags, is unsealed, has no members and no acks, and was active at creation. |
| Server.Registry.constructor | server/main.py:97-103 | The new registry is the empty registry with both counters at 1. |
| Server.Registry.AllocatePeerId | server/main.py:105-108 | Returns the counter and moves it up by one. Nothing else changes. |
| Server.Registry.AllocateConnectionId | server/main.py:110-113 | Returns the connection counter and moves it up by one. |
| Server.Registry.SessionRecipients | server/main.py:437-443 | The loop selects exactly the given peers that still have a session. |
| Server.Registry.BroadcastRecipients | server/main.py:140-153 | The loop of `broadcast_room` selects exactly the members with a session, minus the excluded peer. |
| Server.Registry.NotifyLobbyRoomChanged | server/main.py:487-513 | Each subscriber gets one delta for the room: an upsert with its lobby record if the room is stored and visible to the subscriber's filter, a remove otherwise. Nothing changes. |
| Server.Registry.SortSubscribers | server/main.py:494-512 | The loop over the subscribers splits them exactly into those that see the room and those that do not. |
| Server.Registry.MaybeEmitMatchReady | server/main.py:585-602 | When the room exists, is full and has at least as many acks as members, it touches the room and sends `match_ready` to every member with a session. Otherwise it changes nothing and sends nothing. |
| Server.Registry.HandlePeerConnected | server/main.py:564-582 | Adds the sender to its room's acks when it is a member, touches the room, then runs `maybe_emit_match_ready`. A sender without a session or a stored room changes nothing. |
| Server.Registry.HandleSignal | server/main.py:522-561 | Refuses target 0 and cross-room targets with an error to the sender, and drops unknown peers or a vanished room silently. Otherwise it touches the room and relays the signal to the target. |
| Server.Registry.HandleListLobbies | server/main.py:451-461 | Replies `lobby_list` and then `lobby_snapshot`, both with the visible rooms in dict order under the normalised filter. Nothing changes. |
| Server.Registry.HandleSubscribeLobbies | server/main.py:464-479 | Stores the normalised filter under the connection, replacing any earlier one, and replies with the snapshot for it. |
| Server.Registry.HandleUnsubscribeLobbies | server/main.py:482-484 | Removes the connection's subscription, if any. Nothing else changes. |
| Server.Registry.HandleDisconnect | server/main.py:605-640 | Drops the session, takes the peer out of its room, closes or unseals the room, then notifies the remaining members and the subscribers. It removes room objects but creates none. |
| Server.Registry.LeaveMessages | server/main.py:635-640 | Sends the leave notice to the remaining members, then the lobby deltas. |
| Server.Registry.DetachPeer | server/main.py:606-625 | The locked part of `handle_disconnect` leaves the registry as `DisconnectState` describes. It returns the room the peer was in, or null when there was none. |
| Server.Registry.LeaveRoom | server/main.py:614-616 | The stored room loses the peer's membership and ack and is touched. No other room changes. |
| Server.Registry.Unseal | server/main.py:624-625 | Only the seal of that one stored room changes. |
| Server.Registry.DropRoom | server/main.py:622-623 | The room leaves the dict and the order; the other entries keep their order. |
| Server.Registry.Dispatch | server/main.py:243-296 | One turn of the websocket loop: a close disconnects the bound peer and unsubscribes. A message is routed by type, and the binding changes only on a successful join. |
| Server.Registry.CloseConnection | server/main.py:279-296 | Disconnects the bound peer, if any, and then drops the connection's subscription. |
| Server.Registry.Route | server/main.py:248-277 | Dispatch on the message type: `join` first, then the lobby types, then the types that need a peer. |
| Server.Registry.RouteLobby | server/main.py:256-266 | The lobby types, whatever the binding. |
| Server.Registry.RouteBound | server/main.py:268-277 | `join_required` without a peer. Otherwise signal, ack, or `unknown_message_type`. |
| Server.Registry.StaleRoomIds | server/main.py:666-670 | The comprehension gives exactly the stale rooms in dict order. |
| Server.Registry.PruneStaleRooms | server/main.py:659-684 | Removes the stale rooms and their members' sessions, then sends every subscriber a remove for each of them, in dict order. |
| Server.Registry.PopRooms | server/main.py:672-675 | After the loop: the given rooms are gone from the dict and the order, and so are their members' sessions. |
| Server.Registry.PopRoom | server/main.py:673-675 | One room is gone from the dict and the order, and so are the sessions of its members. |
| Server.Registry.NotifyEach | server/main.py:683-684 | Sends the deltas of `notify_lobby_room_changed` for every pruned id, in order. |
| Server.Registry.NotifyNext | server/main.py:684 | One round of the notify loop adds the deltas of the next id. |
| Server.Registry.HandleJoin | server/main.py:337-448 | The whole join: the refusals with their single error, or the admission with its notices. It returns the new peer id exactly when the join succeeds. |
| Server.Registry.JoinAllocated | server/main.py:356-448 | Past a non-blank id: hands out the next peer id, then joins under it. |
| Server.Registry.JoinRoomAs | server/main.py:358-448 | Finds or creates the room, checks the topology, then admits. |
| Server.Registry.Enter | server/main.py:389-448 | The seal, capacity and host checks, then the admission, the notices and the match-ready check. |
| Server.Registry.JoinMessages | server/main.py:416-443 | The lobby deltas, then `id_assigned` to the caller, then `peer_joined` to the members the topology selects that have a session. |
| Server.Registry.OpenRoom | server/main.py:358-375 | The stored room, or a new room for host `pid` at the end of the order. |
| Server.Registry.AdmitPeer | server/main.py:397-404 | The room grows by the peer and its session is stored. |
| Server.Registry.GrowRoom | server/main.py:397-400 | The room gains the member, is touched, and is sealed when that fills it. No other room changes. |
| Server.JoinAllocates | server/main.py:338-357 | A blank id is refused before a peer id is handed out. Any other id moves the counter first. |

## Left out

- HTTP endpoints (`/health`, `/heartbeat`, the HTML root) and the FastAPI
  setup: framework wiring with no registry logic.
- Accepting, receiving from and sending to websockets, and the UTF-8/JSON
  decoding of `receive_client_message`. These are I/O and library parsers.
  An inbound message is an already decoded `Fields` value. A message that is
  empty, not UTF-8, not JSON or not an object is answered with an error
  (`empty_payload`, `invalid_utf8_payload`, `invalid_json`,
  `json_object_required`) and skipped. It is not an event here.
  `str()`, `bool()` and `int()` coercions are assumed applied. An
  `int(capacity)` or `int(target_id)` that raises is not modelled; see the
  next line for what the loop does then.
- A failed direct send, or a coercion that raises, ends the connection's
  loop. `send_json` catches nothing, so a failed `id_assigned`, a failed
  `peer_joined` to another member, a failed signal relay or a failed
  `send_error` raises into the loop's `except` arms. Those disconnect the
  peer bound at that moment and unsubscribe the connection. In a join
  that is still the old binding, so the new session and its membership
  stay until the sweep. The model has no failing sends and does not
  capture this path.
- Concurrency: `asyncio.Lock`, and the `create_task`/`gather` fan-out.
  Each handler is one atomic step. The messages sent after a handler
  releases the lock are computed on the state it left. No other handler
  runs in between.
- Order among the recipients of one fan-out: a fan-out carries a set. In
  the two gathered fan-outs, `broadcast_room` and
  `notify_lobby_room_changed`, a send that fails is logged and ignored by
  the source; the model does not represent failures.
- Float timestamps: time is an integer.
- Logging, `load_dotenv`, `LOG_LEVEL`, and the environment reads of
  `_load_ice_servers`. The ICE list is an opaque parameter.
- The `prune_stale_rooms` task: its sleep loop and the startup and shutdown
  task handling are timers and task lifecycle. Only the body of one pass is
  modelled.
- The websocket loop: `Dispatch` models one turn. The `while True` is the
  sequence of actions of `DispatchProofs.Run`.
- Server.Registry.PopRooms: the inner `for peer_id in list(room.peer_ids)`
  loop is one map subtraction.
- Server.Registry.PruneStaleRooms: requires that `roomOrder` has no
  repeats, which the registry invariant gives and the dict guarantees.
- Rooms.Inv: states only that a sealed room is at capacity, not the
  converse. An orphan session's disconnect runs `room.is_sealed = False` on
  a room that reuses its old room id, which leaves a full room unsealed.
  `JoinProofs.JoinSuccess` proves the converse right after each join.
- Rooms.PeerConnectedStep: models the corrected ack, which only a member
  can give (see Findings). `AckFinding.PeerConnectedAsWritten` is the code
  as written.
- Server.Registry.HandlePeerConnected: refines the corrected
  `Rooms.PeerConnectedStep`, not the unconditional add of the code.
- AckProofs.PeerConnectedAcks: describes the corrected member-only ack.
  As written, any sender with a session is added.
- AckProofs.PeerConnectedPreservesInv: holds for the corrected ack. As
  written, an orphan's ack breaks `connectedAck <= peerIds`.
- JoinProofs.JoinNeverMatchReady: holds only with the corrected ack. As
  written, orphan acks can make the join's own `maybe_emit_match_ready`
  fire for a joiner that never acked (`AckFinding.OrphanAcksFireOnJoin`).
- DispatchProofs.DispatchPreservesInv: the loop step uses the corrected
  member-only ack. As written, an orphan's `peer_connected` breaks `Inv`
  (`AckFinding.OrphanAckBreaksInv`).
- DispatchProofs.ApplyPreservesInv: the transition system uses the
  corrected ack, for the same reason.
- DispatchProofs.ReachableInv: holds for the transition system with the
  corrected ack. As written, a reachable registry can break `Inv`.
- DispatchProofs.StartInv: every registry reachable from start-up
  satisfies `Inv` only with the corrected ack. As written, the run to
  `AckFinding.Reused` followed by an orphan's ack breaks it.
- JoinProofs.NoReadyOnAdmit: its premise that the acks are no more than
  the members only holds with the corrected ack, for the same reason.
- The orphan sessions themselves: a member of a room closed by its host
  keeps its session, as the code does. Its effects on a later room that
  reuses the id are all modelled as written, except the first:
  - its `peer_connected` counts as an ack (see Findings; the model keeps
    members' acks only);
  - its disconnect unseals that room (see the `Rooms.Inv` line);
  - its disconnect sends `peer_left` to that room's members;
  - its signals reach that room's members and theirs reach it, since only
    room ids are compared (`AckFinding.OrphanSignalsReusedRoom`);
  - each such relay updates that room's activity time, so the sweep keeps
    it.
- The client-side GDScript lifecycle, the negotiation coordinator and the
  lobby cache: the GDScript sources are not part of this model.

## Findings

| source | as written | input that shows it | evidently intended | confidence | as-written member | corrected member |
|---|---|---|---|---|---|---|
| server/main.py:564-582 | `handle_peer_connected` adds the sender to `connected_ack` of the room its session names, without checking that the sender is a member. When a host disconnects, the other members keep their sessions, which still name the room id. If a new room later takes that id, their acks count towards it, so `len(connected_ack) >= len(peer_ids)` can hold before every member has acked. | Four sockets. Host 1 joins "r" (capacity 2). Guest 2 joins. Host 1 disconnects, which closes "r" while 2 keeps its session. Host 3 creates "r" again and guest 4 joins. Then 2 and 3 send `peer_connected`. Peer 4 receives `match_ready` without having acked. If 2 and 3 ack before 4 joins, the join itself sends it to 4. | Only a member's ack counts (`connected_ack` stays a subset of `peer_ids`), so `match_ready` waits for every member. | not executed | AckFinding.OrphanAckTrace | AckProofs.PeerConnectedMatchReady |
