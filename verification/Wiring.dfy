/** Which socket a channel belongs to: every message goes into the socket registered for the room and peer it is meant for. */
module Wiring {
  import opened Basics
  import opened Rooms
  import opened RoomDirectory
  import opened Sessions
  import opened Gateway

  type Sockets = map<Connection, (RoomId, PeerId)>

  /** Every channel of a room is the socket registered for that room and peer. */
  ghost predicate Wired(g: Registry, sockets: Sockets)
  {
    forall id, p :: p in PeersIn(g, id) ==> Holds(sockets, PeersIn(g, id)[p], id, p)
  }

  predicate Holds(sockets: Sockets, conn: Connection, id: RoomId, peer: PeerId)
  {
    conn in sockets && sockets[conn] == (id, peer)
  }

  /** The registry is wired, and a socket's own memory agrees with its registration. */
  ghost predicate Connected(s: Server)
  {
    && Wired(s.registry, s.registry.connections)
    && forall conn :: conn in s.session ==> Holds(s.registry.connections, conn, s.session[conn].0, s.session[conn].1)
  }

  /** Every delivery is into the socket registered for its room and peer. */
  ghost predicate Addressed(sent: set<Delivery>, sockets: Sockets)
  {
    forall d :: d in sent ==> Holds(sockets, d.to, d.room, d.peer)
  }

  lemma BroadcastAddressed(g: Registry, id: RoomId, m: Message, except: Option<PeerId>, sockets: Sockets)
    requires Wired(g, sockets)
    ensures Addressed(Broadcasted(g, id, m, except), sockets)
  {
    forall d | d in Broadcasted(g, id, m, except)
      ensures Holds(sockets, d.to, d.room, d.peer)
    {
      var peer :| peer in PeersIn(g, id) && d == DeliveryTo(g, id, peer, m);
    }
  }

  lemma SentAddressed(g: Registry, id: RoomId, peer: PeerId, m: Message, sockets: Sockets)
    requires Wired(g, sockets)
    ensures Addressed(Sent(g, id, peer, m), sockets)
  {
  }

  lemma AnnouncedAddressed(g: Registry, id: RoomId, code: RoomCode, heir: PeerId, hopping: bool, sockets: Sockets)
    requires Wired(g, sockets)
    ensures Addressed(Announced(g, id, code, heir, hopping), sockets)
  {
    BroadcastAddressed(g, id, RoomOwnerChanged(code, heir), None, sockets);
    SentAddressed(g, id, heir, RoomCodeRotated(code), sockets);
  }

  /** A socket that is not registered yet may be registered for any room and peer. */
  lemma RegisteredWired(g: Registry, conn: Connection, id: RoomId, peer: PeerId, meta: Meta)
    requires Wired(g, g.connections) && conn !in g.connections
    ensures var z := WithMeta(Registered(g, conn, id, peer), id, meta); Wired(z, z.connections)
  {
    var z := Registered(g, conn, id, peer);
    forall other, p | p in PeersIn(z, other)
      ensures Holds(z.connections, PeersIn(z, other)[p], other, p)
    {
      if other != id || p != peer {
        assert p in PeersIn(g, other) && PeersIn(z, other)[p] == PeersIn(g, other)[p];
        assert Holds(g.connections, PeersIn(g, other)[p], other, p);
      }
    }
    var w := WithMeta(z, id, meta);
    assert forall other :: PeersIn(w, other) == PeersIn(z, other);
  }

  /** A socket that closes leaves no channel behind. */
  lemma DisconnectedWired(g: Registry, conn: Connection)
    requires Wired(g, g.connections)
    ensures Wired(Disconnected(g, conn), Disconnected(g, conn).connections)
  {
    var z := Disconnected(g, conn);
    forall id, p | p in PeersIn(z, id)
      ensures Holds(z.connections, PeersIn(z, id)[p], id, p)
    {
      assert p in PeersIn(g, id) && PeersIn(z, id)[p] == PeersIn(g, id)[p];
      assert Holds(g.connections, PeersIn(g, id)[p], id, p);
    }
  }

  /** Forgetting rooms and changing what is known of them moves no channel. */
  lemma FewerChannels(g: Registry, z: Registry)
    requires Wired(g, g.connections) && z.connections == g.connections
    requires forall id :: id in z.rooms ==> id in g.rooms && z.rooms[id] == g.rooms[id]
    ensures Wired(z, z.connections)
  {
    forall id, p | p in PeersIn(z, id)
      ensures Holds(z.connections, PeersIn(z, id)[p], id, p)
    {
      assert Holds(g.connections, PeersIn(g, id)[p], id, p);
    }
  }

  /** What every handler guarantees of the sockets. */
  ghost predicate WellAddressed(f: Effect)
  {
    Connected(f.server) && Addressed(f.sent, f.server.registry.connections)
  }

  lemma CreateAddressed(c: Config, limits: Limits, s: Server, conn: Connection, id: RoomId, draws: seq<RoomCode>, peer: PeerId,
                        key: RateKey, password: Password, hopping: bool, interval: Option<nat>, now: Timestamp, at: Time)
    requires Connected(s)
    ensures WellAddressed(OnCreate(c, limits, s, conn, id, draws, peer, key, password, hopping, interval, now, at))
  {
    if !IsBound(s, conn) {
      RegisteredWired(s.registry, conn, id, peer, Meta(hopping, Some(peer)));
    }
  }

  lemma JoinedAddressed(s: Server, conn: Connection, dir: Directory, id: RoomId, r: Room, code: RoomCode, peer: PeerId,
                        draws: seq<RoomCode>, at: Time)
    requires Connected(s) && !IsBound(s, conn)
    ensures WellAddressed(Joined(s, conn, dir, id, r, code, peer, draws, at))
  {
    var f := Joined(s, conn, dir, id, r, code, peer, draws, at);
    var g := f.server.registry;
    RegisteredWired(s.registry, conn, id, peer, Meta(r.hopping, r.OwnerPeerId()));
    BroadcastAddressed(g, id, PeerJoined(peer), Some(peer), g.connections);
    var result := Rotate(dir, id, draws, at).1;
    if result.Success? && r.OwnerPeerId().Some? {
      SentAddressed(g, id, r.OwnerPeerId().value, RoomCodeRotated(result.value), g.connections);
    }
  }

  lemma JoinAddressed(c: Config, s: Server, conn: Connection, refused: Option<string>, code: Option<RoomCode>, peer: PeerId,
                      secret: Option<string>, key: RateKey, draws: seq<RoomCode>, now: Timestamp, at: Time)
    requires Connected(s)
    ensures WellAddressed(OnJoin(c, s, conn, refused, code, peer, secret, key, draws, now, at))
  {
    if !IsBound(s, conn) && code.Some? && code.value in s.dir.index && s.dir.index[code.value] in s.dir.rooms {
      var id := s.dir.index[code.value];
      var dir := Join(c, s.dir, id, peer, false, secret, now, Some(key)).0;
      JoinedAddressed(s, conn, dir, id, s.dir.rooms[id], code.value, peer, draws, at);
    }
  }

  lemma RelayAddressed(s: Server, conn: Connection, target: PeerId)
    requires Connected(s)
    ensures WellAddressed(OnRelay(s, conn, target))
  {
    if conn in s.session {
      SentAddressed(s.registry, s.session[conn].0, target, Relayed(s.session[conn].1), s.registry.connections);
    }
  }

  lemma RekeyAddressed(s: Server, conn: Connection, secret: string)
    requires Connected(s)
    ensures WellAddressed(OnRekey(s, conn, secret))
  {
    if conn in s.session {
      var f := OnRekey(s, conn, secret);
      var id := s.session[conn].0;
      if id in f.server.dir.rooms {
        BroadcastAddressed(s.registry, id, RekeyNotice(f.server.dir.rooms[id].code), None, s.registry.connections);
      }
    }
  }

  lemma KickAddressed(s: Server, conn: Connection, target: PeerId)
    requires Connected(s)
    ensures WellAddressed(OnKick(s, conn, target))
  {
    if conn in s.session {
      var id := s.session[conn].0;
      SentAddressed(s.registry, id, target, ErrorNotice("KICKED_FROM_ROOM"), s.registry.connections);
      BroadcastAddressed(s.registry, id, PeerLeft(target), Some(target), s.registry.connections);
    }
  }

  lemma TransferAddressed(s: Server, conn: Connection, heir: PeerId)
    requires Connected(s)
    ensures WellAddressed(OnTransfer(s, conn, heir))
  {
    if conn in s.session && Permits(s.dir, s.session[conn].0, s.session[conn].1) {
      var id := s.session[conn].0;
      var r := s.dir.rooms[id];
      var g := WithOwnerMeta(s.registry, id, Some(heir));
      FewerChannels(s.registry, g);
      AnnouncedAddressed(g, id, r.code, heir, WithOwner(r, heir).hopping, g.connections);
    }
  }

  lemma LockAddressed(s: Server, conn: Connection, locked: bool)
    requires Connected(s)
    ensures WellAddressed(OnLock(s, conn, locked))
  {
    if conn in s.session && Permits(s.dir, s.session[conn].0, s.session[conn].1) {
      var (id, sender) := s.session[conn];
      BroadcastAddressed(s.registry, id, RoomLockedNotice(LockRoom(s.dir, id, sender, locked).0.rooms[id].code, locked), None,
                         s.registry.connections);
    }
  }

  lemma ModerateAddressed(s: Server, conn: Connection, target: PeerId, m: Moderation)
    requires Connected(s)
    ensures WellAddressed(OnModerate(s, conn, target, m))
  {
    if conn in s.session {
      BroadcastAddressed(s.registry, s.session[conn].0, ModerationNotice(target, m), None, s.registry.connections);
    }
  }

  lemma DetonateAddressed(s: Server, conn: Connection)
    requires Connected(s)
    ensures WellAddressed(OnDetonate(s, conn))
  {
    if conn in s.session && Permits(s.dir, s.session[conn].0, s.session[conn].1) {
      var id := s.session[conn].0;
      FewerChannels(s.registry, Forgotten(s.registry, id));
      BroadcastAddressed(s.registry, id, RoomDetonated(s.dir.rooms[id].code), None, s.registry.connections);
    }
  }

  lemma DepartedAddressed(s: Server, id: RoomId, peer: PeerId)
    requires Connected(s)
    ensures WellAddressed(Departed(s, id, peer))
  {
    var (dir, outcome) := Leave(s.dir, id, peer);
    if outcome.Some? {
      FewerChannels(s.registry, Forgotten(s.registry, id));
      BroadcastAddressed(s.registry, id, RoomClosed(outcome.value.code, "room_empty"), None, s.registry.connections);
      BroadcastAddressed(s.registry, id, PeerLeft(peer), None, s.registry.connections);
      if outcome.value.newOwner.Some? && !outcome.value.destroyed {
        var heir := outcome.value.newOwner.value;
        var g := WithOwnerMeta(s.registry, id, Some(heir));
        FewerChannels(s.registry, g);
        AnnouncedAddressed(g, id, outcome.value.code, heir, dir.rooms[id].hopping, g.connections);
      }
    }
  }

  lemma DisconnectAddressed(s: Server, conn: Connection)
    requires Connected(s)
    ensures WellAddressed(OnDisconnect(s, conn))
  {
    var closed := s.(registry := Disconnected(s.registry, conn), session := s.session - {conn});
    DisconnectedWired(s.registry, conn);
    assert Connected(closed);
    if conn in s.session {
      DepartedAddressed(closed, s.session[conn].0, s.session[conn].1);
    } else if conn in s.registry.connections {
      DepartedAddressed(closed, s.registry.connections[conn].0, s.registry.connections[conn].1);
    }
  }

  lemma TickMailAddressed(c: Config, s: Server, later: Registry, now: Timestamp, id: RoomId)
    requires Connected(s) && Wired(later, s.registry.connections) && id in s.dir.rooms
    ensures Addressed(TickMail(c, s, later, now, id), s.registry.connections)
  {
    var r := s.dir.rooms[id];
    BroadcastAddressed(s.registry, id, ClosingNotice(r.code, now), None, s.registry.connections);
    BroadcastAddressed(s.registry, id, RoomClosed(r.code, "lifetime_or_grace_period_expired"), None, s.registry.connections);
    forall i | 0 <= i < |r.peers|
      ensures Addressed(Broadcasted(later, id, PeerUnmuted(r.peers[i].id), None), s.registry.connections)
    {
      BroadcastAddressed(later, id, PeerUnmuted(r.peers[i].id), None, s.registry.connections);
    }
  }

  lemma TickAddressed(c: Config, s: Server, now: Timestamp)
    requires Connected(s)
    ensures WellAddressed(OnTick(c, s, now))
  {
    var later := OnTick(c, s, now).server.registry;
    FewerChannels(s.registry, later);
    forall id | id in s.dir.rooms
      ensures Addressed(TickMail(c, s, later, now, id), s.registry.connections)
    {
      TickMailAddressed(c, s, later, now, id);
    }
  }

  lemma AutoRotateAddressed(s: Server, id: RoomId, draws: seq<RoomCode>, at: Time)
    requires Connected(s)
    ensures WellAddressed(OnAutoRotate(s, id, draws, at))
  {
    var result := Rotate(s.dir, id, draws, at).1;
    if id in s.dir.rooms && s.dir.rooms[id].OwnerPeerId().Some? && result.Success? {
      SentAddressed(s.registry, id, s.dir.rooms[id].OwnerPeerId().value, RoomCodeRotated(result.value), s.registry.connections);
    }
  }

  lemma HttpCloseAddressed(c: Config, s: Server, code: RoomCode, peer: PeerId, now: Timestamp)
    requires Connected(s)
    ensures WellAddressed(OnHttpClose(c, s, code, peer, now))
  {
    if code in s.dir.index {
      var id := s.dir.index[code];
      var (dir, error) := CloseRoom(c, s.dir, id, peer, now);
      if error.None? {
        BroadcastAddressed(s.registry, id, ClosingNotice(dir.rooms[id].code, now), None, s.registry.connections);
      }
    }
  }

  lemma HandleAddressed(c: Config, limits: Limits, s: Server, e: Incoming, now: Timestamp, at: Time)
    requires Connected(s)
    ensures WellAddressed(Handle(c, limits, s, e, now, at))
  {
    hide OnCreate, OnJoin, OnRelay, OnRekey, OnKick, OnTransfer, OnLock, OnModerate, OnDetonate, OnDisconnect, OnTick;
    match e
    case CreateMessage(conn, id, draws, peer, key, password, hopping, interval) =>
      CreateAddressed(c, limits, s, conn, id, draws, peer, key, password, hopping, interval, now, at);
    case JoinMessage(conn, refused, code, peer, secret, key, draws) =>
      JoinAddressed(c, s, conn, refused, code, peer, secret, key, draws, now, at);
    case RelayMessage(conn, target) => RelayAddressed(s, conn, target);
    case RekeyMessage(conn, secret) => RekeyAddressed(s, conn, secret);
    case KickMessage(conn, target) => KickAddressed(s, conn, target);
    case TransferMessage(conn, target) => TransferAddressed(s, conn, target);
    case LockMessage(conn, locked) => LockAddressed(s, conn, locked);
    case ModerateMessage(conn, target, moderation) => ModerateAddressed(s, conn, target, moderation);
    case DetonateMessage(conn) => DetonateAddressed(s, conn);
    case Disconnect(conn) => DisconnectAddressed(s, conn);
    case SweeperTick => TickAddressed(c, s, now);
    case AutoRotation(id, draws) => AutoRotateAddressed(s, id, draws, at);
    case HttpCreate(_, _, _, _, _) =>
    case HttpExtend(_, _) =>
    case HttpClose(code, peer) => HttpCloseAddressed(c, s, code, peer, now);
  }
}
