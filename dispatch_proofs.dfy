/** What the websocket loop guarantees: the lobby messages work without a
    join, everything else needs one, the bound peer id changes only on a
    successful join, a close disconnects and unsubscribes, and every turn
    keeps the registry invariant. */
module DispatchProofs {
  import opened Protocol
  import opened Text
  import opened Lobbies
  import opened Rooms
  import opened RoomFacts
  import opened JoinProofs
  import opened SignalProofs
  import opened AckProofs
  import opened DisconnectProofs
  import opened PruneProofs
  import opened LobbyProofs

  /** Lobby messages behave the same whether or not the connection has
      joined a room. */
  lemma LobbyKindsNeedNoJoin(s: RegistryState, conn: ConnId, p: PeerId, kind: string, m: Fields, now: int, ice: Json)
    requires IsLobbyKind(kind)
    ensures var a := DispatchStep(s, conn, None, Received(kind, m), now, ice);
            var b := DispatchStep(s, conn, Some(p), Received(kind, m), now, ice);
            a.state == b.state && a.out == b.out && a.bound == None && b.bound == Some(p)
  {
  }

  /** Before a join every other message is refused with `join_required`,
      and nothing changes. */
  lemma UnboundRefused(s: RegistryState, conn: ConnId, kind: string, m: Fields, now: int, ice: Json)
    requires kind != "join" && !IsLobbyKind(kind)
    ensures var d := DispatchStep(s, conn, None, Received(kind, m), now, ice);
            d.state == s && d.bound == None && d.out == Reply(conn, Error("join_required"))
  {
  }

  /** After a join an unrecognised type is answered with
      `unknown_message_type:<type>`, and nothing changes. */
  lemma UnknownTypeRefused(s: RegistryState, conn: ConnId, p: PeerId, kind: string, m: Fields, now: int, ice: Json)
    requires kind != "join" && !IsLobbyKind(kind) && kind != "signal" && kind != "peer_connected"
    ensures var d := DispatchStep(s, conn, Some(p), Received(kind, m), now, ice);
            d.state == s && d.bound == Some(p) && d.out == Reply(conn, Error("unknown_message_type:" + kind))
  {
  }

  /** The bound peer id changes exactly on a successful join, to the id
      that join hands out; the session of the peer id bound before stays.
      A bound id was handed out earlier, so it is below the counter. */
  lemma BindingOnlyByJoin(s: RegistryState, conn: ConnId, bound: Option<PeerId>, ev: Event, now: int, ice: Json)
    requires Inv(s)
    requires bound.Some? ==> bound.value < s.nextPeerId
    ensures var d := DispatchStep(s, conn, bound, ev, now, ice);
            d.bound != bound <==> ev.Received? && ev.kind == "join" && Admissible(s, ev.fields)
    ensures var d := DispatchStep(s, conn, bound, ev, now, ice);
            d.bound != bound ==>
              && d.bound == Some(s.nextPeerId)
              && (bound.Some? && bound.value in s.peers ==> bound.value in d.state.peers)
  {
    if ev.Received? && ev.kind == "join" {
      JoinFailureCases(s, conn, ev.fields, now, ice);
      if Admissible(s, ev.fields) {
        AdmitShape(s, conn, ev.fields, now, ice);
      }
    }
  }

  /** A closed connection loses its session (when bound) and its
      subscription. */
  lemma CloseCleansUp(s: RegistryState, conn: ConnId, bound: Option<PeerId>, now: int, ice: Json)
    ensures var d := DispatchStep(s, conn, bound, Closed, now, ice);
            && conn !in d.state.subscriptions
            && (bound.Some? ==> bound.value !in d.state.peers)
  {
    if bound.Some? && bound.value in s.peers {
      DisconnectState(s, bound.value, now);
    }
  }

  /** Accepting a websocket hands out a connection id no session or
      subscription uses yet, and keeps the invariant. */
  lemma AcceptFresh(s: RegistryState)
    requires Inv(s)
    ensures var (t, c) := AcceptStep(s);
            && c >= 1 && c !in s.subscriptions && t.nextConnectionId == c + 1
            && (forall p :: p in s.peers ==> s.peers[p].conn != c)
            && Inv(t) && 1 <= c < t.nextConnectionId
  {
    var (t, c) := AcceptStep(s);
    forall k | k in t.rooms ensures RoomOk(t, k, t.rooms[k]) {
      assert RoomOk(s, k, s.rooms[k]);
    }
  }

  /** Every turn of the loop keeps the invariant, for an accepted
      connection. */
  lemma DispatchPreservesInv(s: RegistryState, conn: ConnId, bound: Option<PeerId>, ev: Event, now: int, ice: Json)
    requires Inv(s) && 1 <= conn < s.nextConnectionId
    ensures Inv(DispatchStep(s, conn, bound, ev, now, ice).state)
  {
    match ev
    case Closed =>
      CloseInv(s, conn, bound, now);
    case Received(kind, m) =>
      if kind == "join" {
        JoinPreservesInv(s, conn, m, now, ice);
      } else if IsLobbyKind(kind) {
        LobbyRouteInv(s, conn, bound, kind, m);
      } else {
        BoundRouteInv(s, conn, bound, kind, m, now);
      }
  }

  lemma CloseInv(s: RegistryState, conn: ConnId, bound: Option<PeerId>, now: int)
    requires Inv(s)
    ensures Inv(CloseStep(s, conn, bound, now).state)
  {
    var d := if bound.Some? then DisconnectStep(s, bound.value, now) else Step(s, []);
    if bound.Some? {
      DisconnectPreservesInv(s, bound.value, now);
    }
    UnsubscribeDrops(d.state, conn);
  }

  lemma LobbyRouteInv(s: RegistryState, conn: ConnId, bound: Option<PeerId>, kind: string, m: Fields)
    requires Inv(s) && 1 <= conn < s.nextConnectionId
    ensures Inv(LobbyRouteStep(s, conn, bound, kind, m).state)
  {
    if kind == "subscribe_lobbies" {
      SubscribePreservesInv(s, conn, m);
    } else if kind != "list_lobbies" {
      UnsubscribeDrops(s, conn);
    }
  }

  lemma BoundRouteInv(s: RegistryState, conn: ConnId, bound: Option<PeerId>, kind: string, m: Fields, now: int)
    requires Inv(s)
    ensures Inv(BoundRouteStep(s, conn, bound, kind, m, now).state)
  {
    if bound.Some? && kind == "signal" {
      SignalPreservesInv(s, bound.value, m, now);
    } else if bound.Some? && kind == "peer_connected" {
      PeerConnectedPreservesInv(s, bound.value, now);
    }
  }

  /** The whole server: the registry and, for every open websocket, the
      peer id its loop has bound. */
  datatype System = System(reg: RegistryState, bound: map<ConnId, Option<PeerId>>)

  /** What can happen next: a websocket is accepted, an open websocket
      delivers an event, or the sweep runs. */
  datatype Action = Accept | Deliver(conn: ConnId, ev: Event, now: int) | Sweep(now: int)

  function Apply(sys: System, a: Action, ice: Json): System
  {
    match a
    case Accept =>
      var (t, c) := AcceptStep(sys.reg);
      System(t, sys.bound[c := None])
    case Deliver(c, ev, now) =>
      if c !in sys.bound then sys
      else
        var d := DispatchStep(sys.reg, c, sys.bound[c], ev, now, ice);
        System(d.state, if ev.Closed? then sys.bound - {c} else sys.bound[c := d.bound])
    case Sweep(now) => System(PruneStep(sys.reg, now).state, sys.bound)
  }

  function Run(sys: System, acts: seq<Action>, ice: Json): System
    decreases |acts|
  {
    if acts == [] then sys else Run(Apply(sys, acts[0], ice), acts[1..], ice)
  }

  ghost predicate SysInv(sys: System)
  {
    Inv(sys.reg) && forall c :: c in sys.bound ==> 1 <= c < sys.reg.nextConnectionId
  }

  lemma ApplyPreservesInv(sys: System, a: Action, ice: Json)
    requires SysInv(sys)
    ensures SysInv(Apply(sys, a, ice))
  {
    match a
    case Accept =>
      AcceptFresh(sys.reg);
    case Deliver(c, ev, now) =>
      if c in sys.bound {
        var d := DispatchStep(sys.reg, c, sys.bound[c], ev, now, ice);
        DispatchPreservesInv(sys.reg, c, sys.bound[c], ev, now, ice);
        assert d.state.nextConnectionId == sys.reg.nextConnectionId by {
          DispatchKeepsConnectionCounter(sys.reg, c, sys.bound[c], ev, now, ice);
        }
      }
    case Sweep(now) =>
      PrunePreservesInv(sys.reg, now);
  }

  /** Only accepting a websocket moves the connection-id counter. */
  lemma DispatchKeepsConnectionCounter(s: RegistryState, conn: ConnId, bound: Option<PeerId>, ev: Event, now: int, ice: Json)
    requires Inv(s)
    ensures DispatchStep(s, conn, bound, ev, now, ice).state.nextConnectionId == s.nextConnectionId
  {
    match ev
    case Closed =>
      if bound.Some? && bound.value in s.peers {
        DisconnectState(s, bound.value, now);
      }
    case Received(kind, m) =>
      if kind == "join" {
        JoinKeepsConnectionCounter(s, conn, m, now, ice);
      } else if !IsLobbyKind(kind) {
        BoundKeepsConnectionCounter(s, conn, bound, kind, m, now);
      }
  }

  lemma JoinKeepsConnectionCounter(s: RegistryState, conn: ConnId, m: Fields, now: int, ice: Json)
    requires Inv(s)
    ensures JoinStep(s, conn, m, now, ice).state.nextConnectionId == s.nextConnectionId
  {
    JoinRefusalIsOneError(s, conn, m, now, ice);
    if JoinStep(s, conn, m, now, ice).newPeer.Some? {
      JoinFailureCases(s, conn, m, now, ice);
      AdmitShape(s, conn, m, now, ice);
      AfterJoinParts(s, conn, m, now);
    }
  }

  lemma BoundKeepsConnectionCounter(s: RegistryState, conn: ConnId, bound: Option<PeerId>, kind: string, m: Fields, now: int)
    requires Inv(s)
    ensures BoundRouteStep(s, conn, bound, kind, m, now).state.nextConnectionId == s.nextConnectionId
  {
    if bound.Some? && kind == "signal" {
      SignalOnlyTouches(s, bound.value, m, now);
    } else if bound.Some? && kind == "peer_connected" {
      PeerConnectedAcks(s, bound.value, now);
    }
  }

  /** Every registry the server can reach from start-up satisfies the
      invariant. */
  lemma {:induction false} ReachableInv(sys: System, acts: seq<Action>, ice: Json)
    requires SysInv(sys)
    ensures SysInv(Run(sys, acts, ice))
    decreases |acts|
  {
    if acts != [] {
      ApplyPreservesInv(sys, acts[0], ice);
      ReachableInv(Apply(sys, acts[0], ice), acts[1..], ice);
    }
  }

  lemma StartInv(acts: seq<Action>, ice: Json)
    ensures SysInv(Run(System(Init(), map[]), acts, ice))
  {
    InitInv();
    ReachableInv(System(Init(), map[]), acts, ice);
  }
}
