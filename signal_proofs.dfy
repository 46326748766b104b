/** What `handle_signal` guarantees: a relay only between two sessions of
    the same existing room, errors only to the sender, and no change but the
    room's activity time. */
module SignalProofs {
  import opened Protocol
  import opened Rooms
  import opened RoomFacts

  /** Sender and target are bound to the same room, which still exists. */
  ghost predicate SameLiveRoom(s: RegistryState, from: PeerId, target: PeerId)
  {
    && from in s.peers && target in s.peers
    && s.peers[from].roomId == s.peers[target].roomId
    && s.peers[from].roomId in s.rooms
  }

  /** The signal is relayed, exactly once and verbatim, to the target's
      websocket exactly when the target id is set and both sessions are
      bound to the same live room. */
  lemma SignalRelayed(s: RegistryState, from: PeerId, m: Fields, now: int)
    ensures var r := SignalStep(s, from, m, now);
            (exists o :: o in r.out && o.msg.Signal?) <==> m.targetId != 0 && SameLiveRoom(s, from, m.targetId)
    ensures var r := SignalStep(s, from, m, now);
            forall o :: o in r.out && o.msg.Signal? ==> o == Outbound({Peer(m.targetId)}, Signal(from, m.sdp, m.ice))
    ensures |SignalStep(s, from, m, now).out| <= 1
  {
  }

  /** Errors go only to the sender's own session: `target_id_required` when
      no target is named, `cross_room_signal_blocked` when both sessions
      exist but are bound to different rooms. */
  lemma SignalErrors(s: RegistryState, from: PeerId, m: Fields, now: int)
    ensures var r := SignalStep(s, from, m, now);
            forall o :: o in r.out && !o.msg.Signal? ==> o.to == {Peer(from)} && o.msg.Error?
    ensures var r := SignalStep(s, from, m, now);
            Outbound({Peer(from)}, Error("target_id_required")) in r.out <==> m.targetId == 0 && from in s.peers
    ensures var r := SignalStep(s, from, m, now);
            Outbound({Peer(from)}, Error("cross_room_signal_blocked")) in r.out <==>
              && m.targetId != 0 && from in s.peers && m.targetId in s.peers
              && s.peers[from].roomId != s.peers[m.targetId].roomId
    ensures var r := SignalStep(s, from, m, now);
            forall o :: o in r.out && !o.msg.Signal? ==>
              o.msg == Error("target_id_required") || o.msg == Error("cross_room_signal_blocked")
  {
  }

  /** Nothing at all is sent exactly when the signal is dropped silently:
      no target and no sender session, an unknown sender or target, or a
      shared room that no longer exists. */
  lemma SignalDropped(s: RegistryState, from: PeerId, m: Fields, now: int)
    ensures SignalStep(s, from, m, now).out == [] <==>
              || (m.targetId == 0 && from !in s.peers)
              || (m.targetId != 0 && (from !in s.peers || m.targetId !in s.peers))
              || (&& m.targetId != 0 && from in s.peers && m.targetId in s.peers
                  && s.peers[from].roomId == s.peers[m.targetId].roomId
                  && s.peers[from].roomId !in s.rooms)
  {
  }

  /** A signal changes nothing but the activity time of the room it is
      relayed in, which becomes `now`. */
  lemma SignalOnlyTouches(s: RegistryState, from: PeerId, m: Fields, now: int)
    ensures var t := SignalStep(s, from, m, now).state;
            && t.peers == s.peers && t.subscriptions == s.subscriptions && t.roomOrder == s.roomOrder
            && t.nextPeerId == s.nextPeerId && t.nextConnectionId == s.nextConnectionId
            && t.rooms.Keys == s.rooms.Keys
            && forall k :: k in s.rooms ==>
                 t.rooms[k] == s.rooms[k].(lastActivity := t.rooms[k].lastActivity)
                 && (t.rooms[k].lastActivity != s.rooms[k].lastActivity ==>
                       t.rooms[k].lastActivity == now && m.targetId != 0 && SameLiveRoom(s, from, m.targetId)
                       && k == s.peers[from].roomId)
  {
  }

  lemma SignalPreservesInv(s: RegistryState, from: PeerId, m: Fields, now: int)
    requires Inv(s)
    ensures Inv(SignalStep(s, from, m, now).state)
  {
    if m.targetId != 0 && SameLiveRoom(s, from, m.targetId) {
      TouchInv(s, s.peers[from].roomId, now);
    }
  }
}
