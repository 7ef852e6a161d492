/**
 The handlers carried out in place on the manager and the registry, each proved against `Gateway`, and
 so each keeping the registry true and every code of a hopping room with its owner.
 */
module SignalingServer {
  import opened Basics
  import opened Rooms
  import opened RoomDirectory
  import opened RoomManagement
  import opened Sessions
  import opened Gateway
  import opened Wiring
  import opened Routing

  /** The channels' log has grown by exactly these deliveries. */
  ghost predicate Emitted(before: seq<Delivery>, now: seq<Delivery>, out: set<Delivery>)
  {
    before <= now && forall d :: d in now[|before|..] <==> d in out
  }

  lemma EmittedBoth(a: seq<Delivery>, b: seq<Delivery>, c: seq<Delivery>, x: set<Delivery>, y: set<Delivery>)
    requires Emitted(a, b, x) && Emitted(b, c, y)
    ensures Emitted(a, c, x + y)
  {
    assert c[|a|..] == b[|a|..] + c[|b|..];
  }

  lemma EmittedMail(before: seq<Delivery>, mail: seq<Delivery>)
    ensures Emitted(before, before + mail, set d | d in mail)
  {
    assert (before + mail)[|before|..] == mail;
  }

  ghost predicate Consistent(s: Gateway.Server)
  {
    Agreement(s.dir, s.registry) && Connected(s)
  }

  /** The registry stays true, and the new entries of the log are for owners' eyes and into their sockets. */
  ghost predicate Faithful(was: Gateway.Server, now: Gateway.Server, before: seq<Delivery>, log: seq<Delivery>)
  {
    before <= log && (Consistent(was) ==>
      var out := set d | d in log[|before|..];
      Consistent(now) && Discreet(out, was.dir, now.dir) && Addressed(out, now.registry.connections))
  }

  lemma SoundIsFaithful(was: Gateway.Server, f: Effect, before: seq<Delivery>, log: seq<Delivery>)
    requires Emitted(before, log, f.sent) && (Consistent(was) ==> Sound(was, f) && WellAddressed(f))
    ensures Faithful(was, f.server, before, log)
  {
    assert (set d | d in log[|before|..]) == f.sent;
  }

  lemma CreateFaithful(c: Config, limits: Limits, was: Gateway.Server, conn: Connection, id: RoomId, draws: seq<RoomCode>, peer: PeerId,
                       key: RateKey, password: Password, hopping: bool, interval: Option<nat>, now: Timestamp, at: Time, log: seq<Delivery>)
    requires id !in was.dir.rooms
    ensures Faithful(was, OnCreate(c, limits, was, conn, id, draws, peer, key, password, hopping, interval, now, at).server, log, log)
  {
    var f := OnCreate(c, limits, was, conn, id, draws, peer, key, password, hopping, interval, now, at);
    if Consistent(was) {
      CreateSound(c, limits, was, conn, id, draws, peer, key, password, hopping, interval, now, at);
      CreateAddressed(c, limits, was, conn, id, draws, peer, key, password, hopping, interval, now, at);
    }
    SoundIsFaithful(was, f, log, log);
  }

  lemma JoinFaithful(c: Config, was: Gateway.Server, conn: Connection, refused: Option<string>, code: Option<RoomCode>, peer: PeerId,
                     secret: Option<string>, key: RateKey, draws: seq<RoomCode>, now: Timestamp, at: Time,
                     before: seq<Delivery>, log: seq<Delivery>)
    requires Emitted(before, log, OnJoin(c, was, conn, refused, code, peer, secret, key, draws, now, at).sent)
    ensures Faithful(was, OnJoin(c, was, conn, refused, code, peer, secret, key, draws, now, at).server, before, log)
  {
    if Consistent(was) {
      JoinSound(c, was, conn, refused, code, peer, secret, key, draws, now, at);
      JoinAddressed(c, was, conn, refused, code, peer, secret, key, draws, now, at);
    }
    SoundIsFaithful(was, OnJoin(c, was, conn, refused, code, peer, secret, key, draws, now, at), before, log);
  }

  lemma KickFaithful(c: Config, was: Gateway.Server, conn: Connection, target: PeerId, before: seq<Delivery>, log: seq<Delivery>)
    requires Emitted(before, log, OnKick(was, conn, target).sent)
    ensures Faithful(was, OnKick(was, conn, target).server, before, log)
  {
    if Consistent(was) {
      KickSound(c, was, conn, target);
      KickAddressed(was, conn, target);
    }
    SoundIsFaithful(was, OnKick(was, conn, target), before, log);
  }

  lemma TransferFaithful(was: Gateway.Server, conn: Connection, heir: PeerId, before: seq<Delivery>, log: seq<Delivery>)
    requires Emitted(before, log, OnTransfer(was, conn, heir).sent)
    ensures Faithful(was, OnTransfer(was, conn, heir).server, before, log)
  {
    if Consistent(was) {
      TransferSound(was, conn, heir);
      TransferAddressed(was, conn, heir);
    }
    SoundIsFaithful(was, OnTransfer(was, conn, heir), before, log);
  }

  lemma DetonateFaithful(was: Gateway.Server, conn: Connection, before: seq<Delivery>, log: seq<Delivery>)
    requires Emitted(before, log, OnDetonate(was, conn).sent)
    ensures Faithful(was, OnDetonate(was, conn).server, before, log)
  {
    if Consistent(was) {
      DetonateSound(was, conn);
      DetonateAddressed(was, conn);
    }
    SoundIsFaithful(was, OnDetonate(was, conn), before, log);
  }

  lemma DisconnectFaithful(was: Gateway.Server, conn: Connection, before: seq<Delivery>, log: seq<Delivery>)
    requires Emitted(before, log, OnDisconnect(was, conn).sent)
    ensures Faithful(was, OnDisconnect(was, conn).server, before, log)
  {
    if Consistent(was) {
      DisconnectSound(was, conn);
      DisconnectAddressed(was, conn);
    }
    SoundIsFaithful(was, OnDisconnect(was, conn), before, log);
  }

  lemma NothingEmitted(log: seq<Delivery>)
    ensures Emitted(log, log, {})
  {
  }

  lemma DetonateCases(s: Gateway.Server, conn: Connection)
    ensures conn !in s.session ==> OnDetonate(s, conn) == Refuse(s, "NOT_IN_ROOM")
    ensures conn in s.session && !Permits(s.dir, s.session[conn].0, s.session[conn].1) ==>
              OnDetonate(s, conn) == Refuse(s, "UNAUTHORIZED")
    ensures conn in s.session && Permits(s.dir, s.session[conn].0, s.session[conn].1) ==> OnDetonate(s, conn).replies == []
  {
  }

  class Server {
    const limits: Limits
    const manager: RoomManager
    const registry: PeerSessionRegistry
    var session: map<Connection, (RoomId, PeerId)>

    ghost predicate Valid()
      reads this, manager
    {
      manager.Valid()
    }

    ghost function Value(): Gateway.Server
      reads this, manager, manager.rooms.Values, registry
    {
      Gateway.Server(manager.View(), registry.Value(), session)
    }

    constructor (config: Config, limits: Limits)
      ensures Valid() && fresh(manager) && fresh(registry) && manager.config == config && this.limits == limits
      ensures Value().dir == EMPTY && Value().registry == Registry(map[], map[], map[]) && Value().session == map[]
      ensures Consistent(Value())
      ensures registry.sent == []
    {
      this.limits := limits;
      manager := new RoomManager(config);
      registry := new PeerSessionRegistry();
      session := map[];
    }

    method Broadcast(id: RoomId, m: Message, except: Option<PeerId>)
      modifies registry`sent
      ensures Emitted(old(registry.sent), registry.sent, Broadcasted(registry.Value(), id, m, except))
    {
      var count, order := registry.Broadcast(id, m, except);
      MailIsBroadcast(registry.Value(), id, m, except, order);
      EmittedMail(old(registry.sent), Mail(Letters(registry.Value(), id, m), order));
    }

    method SendToPeer(id: RoomId, peer: PeerId, m: Message)
      modifies registry`sent
      ensures Emitted(old(registry.sent), registry.sent, Sent(registry.Value(), id, peer, m))
    {
      var found := registry.SendToPeer(id, peer, m);
      assert registry.sent[|old(registry.sent)|..] == if found then [DeliveryTo(registry.Value(), id, peer, m)] else [];
    }

    method CodeOf(id: RoomId) returns (code: RoomCode)
      requires Valid() && id in Value().dir.rooms
      ensures code == Value().dir.rooms[id].code
    {
      assert manager.View().rooms.Keys == manager.rooms.Keys;
      code := manager.rooms[id].code;
    }

    method Hops(id: RoomId) returns (hopping: bool)
      requires Valid()
      ensures hopping <==> id in Value().dir.rooms && Value().dir.rooms[id].hopping
    {
      assert manager.View().rooms.Keys == manager.rooms.Keys;
      hopping := id in manager.rooms && manager.rooms[id].hopping;
    }

    /** Whether a socket may act on its room; a refusal says why not. */
    method Refusal(conn: Connection) returns (refusal: Option<string>)
      requires Valid()
      ensures refusal == if conn !in session then Some("NOT_IN_ROOM")
                         else if !Permits(Value().dir, session[conn].0, session[conn].1) then Some("UNAUTHORIZED")
                         else None
    {
      if conn !in session {
        return Some("NOT_IN_ROOM");
      }
      var (id, sender) := session[conn];
      if id !in manager.rooms || !manager.rooms[id].Value().HasPermission(sender) {
        return Some("UNAUTHORIZED");
      }
      return None;
    }

    /** The room's channels are told that it is gone, and forgotten with the caller's session. */
    method TellDetonated(conn: Connection, id: RoomId, code: RoomCode)
      modifies this`session, registry
      ensures registry.Value() == Forgotten(old(registry.Value()), id) && session == old(session) - {conn}
      ensures Emitted(old(registry.sent), registry.sent, Broadcasted(old(registry.Value()), id, RoomDetonated(code), None))
    {
      Broadcast(id, RoomDetonated(code), None);
      registry.RemoveRoom(id);
      session := session - {conn};
    }

    method Detonated(conn: Connection)
      requires Valid() && conn in session && Permits(Value().dir, session[conn].0, session[conn].1)
      modifies this, manager, registry
      ensures Valid()
      ensures Value() == OnDetonate(old(Value()), conn).server
      ensures Emitted(old(registry.sent), registry.sent, OnDetonate(old(Value()), conn).sent)
    {
      hide RoomManager.View, Broadcasted, Detonate, Forgotten;
      var (id, sender) := session[conn];
      ghost var was := manager.View();
      var code := CodeOf(id);
      var error := manager.DetonateRoom(id, sender);
      ghost var dir := Detonate(was, id, sender).0;
      assert manager.View() == dir;
      TellDetonated(conn, id, code);
      assert manager.View() == dir;
    }

    method DetonateRoom(conn: Connection) returns (replies: seq<Message>)
      requires Valid()
      modifies this, manager, registry
      ensures Valid()
      ensures Value() == OnDetonate(old(Value()), conn).server
      ensures replies == OnDetonate(old(Value()), conn).replies
      ensures Emitted(old(registry.sent), registry.sent, OnDetonate(old(Value()), conn).sent)
      ensures Faithful(old(Value()), Value(), old(registry.sent), registry.sent)
    {
      hide Permits, OnDetonate, RoomManager.View, Emitted, Faithful;
      DetonateCases(Value(), conn);
      var refusal := Refusal(conn);
      if refusal.Some? {
        NothingEmitted(registry.sent);
        replies := [ErrorNotice(refusal.value)];
      } else {
        Detonated(conn);
        replies := [];
      }
      DetonateFaithful(old(Value()), conn, old(registry.sent), registry.sent);
    }

    /** The kicked peer learns why its socket will close, and the others that it is gone. */
    method TellKicked(id: RoomId, target: PeerId)
      modifies registry`sent
      ensures Emitted(old(registry.sent), registry.sent,
                      Sent(registry.Value(), id, target, ErrorNotice("KICKED_FROM_ROOM"))
                      + Broadcasted(registry.Value(), id, PeerLeft(target), Some(target)))
    {
      SendToPeer(id, target, ErrorNotice("KICKED_FROM_ROOM"));
      ghost var between := registry.sent;
      Broadcast(id, PeerLeft(target), Some(target));
      EmittedBoth(old(registry.sent), between, registry.sent, Sent(registry.Value(), id, target, ErrorNotice("KICKED_FROM_ROOM")),
                  Broadcasted(registry.Value(), id, PeerLeft(target), Some(target)));
    }

    method Kicked(id: RoomId, sender: PeerId, target: PeerId) returns (error: Option<RoomError>)
      requires Valid() && Permits(Value().dir, id, sender) && sender != target
      modifies manager.rooms.Values, registry`sent
      ensures Valid()
      ensures var (dir, result) := Kick(old(Value()).dir, id, sender, target);
              && Value() == old(Value()).(dir := dir)
              && error == (if result.Failure? then Some(result.error) else None)
              && Emitted(old(registry.sent), registry.sent,
                         if result.Failure? then {} else
                           Sent(registry.Value(), id, target, ErrorNotice("KICKED_FROM_ROOM"))
                           + Broadcasted(registry.Value(), id, PeerLeft(target), Some(target)))
    {
      hide RoomManager.View, Broadcasted, Sent, Kick;
      ghost var was := manager.View();
      var result := manager.KickPeer(id, sender, target);
      ghost var dir := Kick(was, id, sender, target).0;
      assert manager.View() == dir;
      if result.Failure? {
        return Some(result.error);
      }
      TellKicked(id, target);
      assert manager.View() == dir;
      return None;
    }

    method KickPeer(conn: Connection, target: PeerId) returns (replies: seq<Message>)
      requires Valid()
      modifies manager.rooms.Values, registry`sent
      ensures Valid()
      ensures Value() == OnKick(old(Value()), conn, target).server
      ensures replies == OnKick(old(Value()), conn, target).replies
      ensures Emitted(old(registry.sent), registry.sent, OnKick(old(Value()), conn, target).sent)
      ensures Faithful(old(Value()), Value(), old(registry.sent), registry.sent)
    {
      var refusal := Refusal(conn);
      if refusal.Some? {
        replies := [ErrorNotice(refusal.value)];
      } else if session[conn].1 == target {
        replies := [ErrorNotice("CANNOT_KICK_SELF")];
      } else {
        var error := Kicked(session[conn].0, session[conn].1, target);
        replies := if error.Some? then [ErrorNotice(ErrorKind(error.value))] else [];
      }
      KickFaithful(manager.config, old(Value()), conn, target, old(registry.sent), registry.sent);
    }

    /** Tells a room of its new owner, who gets the code if the room is hopping. */
    method Announce(id: RoomId, code: RoomCode, heir: PeerId, hopping: bool)
      modifies registry`sent
      ensures Emitted(old(registry.sent), registry.sent, Announced(registry.Value(), id, code, heir, hopping))
    {
      Broadcast(id, RoomOwnerChanged(code, heir), None);
      ghost var between := registry.sent;
      if hopping {
        SendToPeer(id, heir, RoomCodeRotated(code));
      }
      EmittedBoth(old(registry.sent), between, registry.sent, Broadcasted(registry.Value(), id, RoomOwnerChanged(code, heir), None),
                  if hopping then Sent(registry.Value(), id, heir, RoomCodeRotated(code)) else {});
    }

    method TellTransferred(id: RoomId, code: RoomCode, heir: PeerId, hopping: bool)
      modifies registry
      ensures registry.Value() == WithOwnerMeta(old(registry.Value()), id, Some(heir))
      ensures Emitted(old(registry.sent), registry.sent, Announced(registry.Value(), id, code, heir, hopping))
    {
      registry.SetRoomOwner(id, Some(heir));
      Announce(id, code, heir, hopping);
    }

    method Transferred(id: RoomId, sender: PeerId, heir: PeerId) returns (error: Option<RoomError>)
      requires Valid() && Permits(Value().dir, id, sender) && sender != heir
      modifies manager.rooms.Values, registry
      ensures Valid()
      ensures var (dir, result) := Transfer(old(Value()).dir, id, sender, heir);
              var g := if result.Failure? then old(Value()).registry else WithOwnerMeta(old(Value()).registry, id, Some(heir));
              && Value() == old(Value()).(dir := dir, registry := g)
              && error == (if result.Failure? then Some(result.error) else None)
              && Emitted(old(registry.sent), registry.sent,
                         if result.Failure? then {} else Announced(g, id, result.value, heir, dir.rooms[id].hopping))
    {
      hide RoomManager.View, Transfer, Announced, WithOwnerMeta, Emitted;
      NothingEmitted(registry.sent);
      ghost var was := manager.View();
      var result := manager.TransferOwnership(id, sender, heir);
      ghost var dir := Transfer(was, id, sender, heir).0;
      assert manager.View() == dir;
      if result.Failure? {
        return Some(result.error);
      }
      TransferKeepsRooms(was, id, sender, heir);
      var hopping := Hops(id);
      TellTransferred(id, result.value, heir, hopping);
      assert manager.View() == dir;
      return None;
    }

    method TransferOwnership(conn: Connection, heir: PeerId) returns (replies: seq<Message>)
      requires Valid()
      modifies manager.rooms.Values, registry
      ensures Valid()
      ensures Value() == OnTransfer(old(Value()), conn, heir).server
      ensures replies == OnTransfer(old(Value()), conn, heir).replies
      ensures Emitted(old(registry.sent), registry.sent, OnTransfer(old(Value()), conn, heir).sent)
      ensures Faithful(old(Value()), Value(), old(registry.sent), registry.sent)
    {
      var refusal := Refusal(conn);
      if refusal.Some? {
        replies := [ErrorNotice(refusal.value)];
      } else if session[conn].1 == heir {
        replies := [ErrorNotice("ALREADY_OWNER")];
      } else {
        var error := Transferred(session[conn].0, session[conn].1, heir);
        replies := if error.Some? then [ErrorNotice(ErrorKind(error.value))] else [];
      }
      TransferFaithful(old(Value()), conn, heir, old(registry.sent), registry.sent);
    }

    method CreateRoom(conn: Connection, id: RoomId, draws: seq<RoomCode>, peer: PeerId, key: RateKey, password: Password,
                      hopping: bool, interval: Option<nat>, now: Timestamp, at: Time) returns (replies: seq<Message>)
      requires Valid()
      modifies this, manager, registry
      ensures Valid()
      ensures var f := OnCreate(manager.config, limits, old(Value()), conn, id, draws, peer, key, password, hopping, interval, now, at);
              Value() == f.server && replies == f.replies && registry.sent == old(registry.sent)
      ensures id !in old(Value()).dir.rooms ==> Faithful(old(Value()), Value(), old(registry.sent), registry.sent)
    {
      hide IsBound, ActiveByOwnerKey, Create, RoomManager.View, Faithful, Registered, WithMeta;
      var refusal := CreateRefusal(conn, key, now);
      if refusal.Some? {
        replies := [ErrorNotice(refusal.value)];
      } else {
        replies := Admitted(conn, id, draws, peer, key, password, hopping,
                            if hopping && interval.Some? && interval.value > 0 then interval else None, now, at);
      }
      if id !in old(Value()).dir.rooms {
        CreateFaithful(manager.config, limits, old(Value()), conn, id, draws, peer, key, password, hopping, interval, now, at, registry.sent);
      }
    }

    /** The limits a creation is held to before a code is drawn. */
    method CreateRefusal(conn: Connection, key: RateKey, now: Timestamp) returns (refusal: Option<string>)
      requires Valid()
      ensures var s := Value();
              refusal == if IsBound(s, conn) then Some("ALREADY_IN_ROOM")
                         else if |s.dir.rooms| >= limits.maxRooms then Some("SERVER_BUSY")
                         else if |ActiveByOwnerKey(s.dir, key, now)| >= limits.maxRoomsPerOwner then Some("ACTIVE_ROOM_LIMIT_EXCEEDED")
                         else None
    {
      if conn in session || conn in registry.connectionRooms {
        return Some("ALREADY_IN_ROOM");
      }
      assert manager.View().rooms.Keys == manager.rooms.Keys;
      if |manager.rooms.Keys| >= limits.maxRooms {
        return Some("SERVER_BUSY");
      }
      var active := manager.CountActiveRoomsByOwner(key, now);
      return if active >= limits.maxRoomsPerOwner then Some("ACTIVE_ROOM_LIMIT_EXCEEDED") else None;
    }

    /** The socket now acts for that peer of that room, and the registry knows the room's owner. */
    method Seat(conn: Connection, id: RoomId, peer: PeerId, hopping: bool, owner: Option<PeerId>)
      modifies this`session, registry
      ensures registry.Value() == WithMeta(Registered(old(registry.Value()), conn, id, peer), id, Meta(hopping, owner))
      ensures session == old(session)[conn := (id, peer)] && registry.sent == old(registry.sent)
    {
      registry.RegisterConnection(conn, id, peer);
      registry.SetRoomMeta(id, hopping, owner);
      session := session[conn := (id, peer)];
    }

    method Admitted(conn: Connection, id: RoomId, draws: seq<RoomCode>, peer: PeerId, key: RateKey, password: Password,
                    hopping: bool, autoRotate: Option<nat>, now: Timestamp, at: Time) returns (replies: seq<Message>)
      requires Valid()
      modifies this, manager, registry
      ensures Valid() && registry.sent == old(registry.sent)
      ensures var s := old(Value());
              var (dir, code) := Create(manager.config, s.dir, id, draws, Some(peer), Some(key), password, hopping, autoRotate, now, at);
              if code.None? then Value() == s && replies == [ErrorNotice("CREATION_FAILED")]
              else
                && Value() == Gateway.Server(dir, WithMeta(Registered(s.registry, conn, id, peer), id, Meta(hopping, Some(peer))),
                                             s.session[conn := (id, peer)])
                && replies == [RoomCreated(code.value, peer, dir.rooms[id].expiresAt)]
    {
      ghost var was := manager.View();
      var code := manager.CreateRoomWithOptions(id, draws, Some(peer), Some(key), password, hopping, autoRotate, now, at);
      ghost var dir := Create(manager.config, was, id, draws, Some(peer), Some(key), password, hopping, autoRotate, now, at).0;
      assert manager.View() == dir;
      if code.None? {
        return [ErrorNotice("CREATION_FAILED")];
      }
      assert id in dir.rooms && manager.View().rooms.Keys == manager.rooms.Keys;
      var expiresAt := manager.rooms[id].expiresAt;
      assert expiresAt == dir.rooms[id].expiresAt;
      Seat(conn, id, peer, hopping, Some(peer));
      assert manager.View() == dir;
      return [RoomCreated(code.value, peer, expiresAt)];
    }

    /** Those who stay learn who left and, if the owner did, who follows. */
    method TellDeparture(id: RoomId, peer: PeerId, heir: Option<PeerId>, code: RoomCode, hopping: bool)
      modifies registry
      ensures registry.Value() == if heir.Some? then WithOwnerMeta(old(registry.Value()), id, heir) else old(registry.Value())
      ensures Emitted(old(registry.sent), registry.sent,
                      Broadcasted(old(registry.Value()), id, PeerLeft(peer), None)
                      + if heir.Some? then Announced(registry.Value(), id, code, heir.value, hopping) else {})
    {
      Broadcast(id, PeerLeft(peer), None);
      ghost var between := registry.sent;
      if heir.Some? {
        registry.SetRoomOwner(id, heir);
        Announce(id, code, heir.value, hopping);
      }
      EmittedBoth(old(registry.sent), between, registry.sent, Broadcasted(old(registry.Value()), id, PeerLeft(peer), None),
                  if heir.Some? then Announced(registry.Value(), id, code, heir.value, hopping) else {});
    }

    /** A room that emptied is closed towards any channel still open, and forgotten. */
    method TellClosed(id: RoomId, code: RoomCode)
      modifies registry
      ensures registry.Value() == Forgotten(old(registry.Value()), id)
      ensures Emitted(old(registry.sent), registry.sent, Broadcasted(old(registry.Value()), id, RoomClosed(code, "room_empty"), None))
    {
      Broadcast(id, RoomClosed(code, "room_empty"), None);
      registry.RemoveRoom(id);
    }

    method TellOutcome(id: RoomId, peer: PeerId, outcome: LeaveOutcome, hopping: bool)
      modifies registry
      ensures registry.Value() == if outcome.destroyed then Forgotten(old(registry.Value()), id)
                                  else if outcome.newOwner.Some? then WithOwnerMeta(old(registry.Value()), id, outcome.newOwner)
                                  else old(registry.Value())
      ensures Emitted(old(registry.sent), registry.sent,
                      if outcome.destroyed then Broadcasted(old(registry.Value()), id, RoomClosed(outcome.code, "room_empty"), None)
                      else Broadcasted(old(registry.Value()), id, PeerLeft(peer), None)
                           + if outcome.newOwner.Some? then Announced(registry.Value(), id, outcome.code, outcome.newOwner.value, hopping)
                             else {})
    {
      if outcome.destroyed {
        TellClosed(id, outcome.code);
      } else {
        TellDeparture(id, peer, outcome.newOwner, outcome.code, hopping);
      }
    }

    method Depart(id: RoomId, peer: PeerId)
      requires Valid()
      modifies manager, manager.rooms.Values, registry
      ensures Valid()
      ensures Value() == Departed(old(Value()), id, peer).server
      ensures Emitted(old(registry.sent), registry.sent, Departed(old(Value()), id, peer).sent)
    {
      hide RoomManager.View, Broadcasted, Leave, Forgotten, Announced, WithOwnerMeta;
      ghost var was, known := manager.View(), registry.Value();
      var outcome := manager.LeaveRoom(id, peer);
      ghost var dir := Leave(was, id, peer).0;
      assert manager.View() == dir;
      if outcome.Some? {
        var hopping := Hops(id);
        TellOutcome(id, peer, outcome.value, hopping);
        assert manager.View() == dir;
        DepartedIs(Gateway.Server(was, known, session), id, peer, hopping);
      } else {
        NobodyDeparts(was, id, peer);
      }
    }

    method CloseSocket(conn: Connection)
      requires Valid()
      modifies this, manager, manager.rooms.Values, registry
      ensures Valid()
      ensures Value() == OnDisconnect(old(Value()), conn).server
      ensures Emitted(old(registry.sent), registry.sent, OnDisconnect(old(Value()), conn).sent)
      ensures Faithful(old(Value()), Value(), old(registry.sent), registry.sent)
    {
      hide Departed, Disconnected, Emitted, Faithful, RoomManager.View;
      NothingEmitted(registry.sent);
      var remembered := if conn in session then Some(session[conn]) else None;
      ghost var was := manager.View();
      var registered := registry.UnregisterConnection(conn);
      assert manager.View() == was;
      session := session - {conn};
      assert manager.View() == was;
      var cleanup := if remembered.Some? then remembered else registered;
      if cleanup.Some? {
        Depart(cleanup.value.0, cleanup.value.1);
      }
      DisconnectFaithful(old(Value()), conn, old(registry.sent), registry.sent);
    }

    /** A hopping room's code is replaced after a join, and only its owner is told. */
    method RotateAfterJoin(id: RoomId, owner: Option<PeerId>, draws: seq<RoomCode>, at: Time)
      requires Valid()
      modifies manager`codeToId, manager.rooms.Values, registry`sent
      ensures Valid()
      ensures var (dir, result) := Rotate(old(Value()).dir, id, draws, at);
              && Value() == old(Value()).(dir := dir)
              && Emitted(old(registry.sent), registry.sent,
                         if result.Success? && owner.Some?
                         then Sent(registry.Value(), id, owner.value, RoomCodeRotated(result.value)) else {})
    {
      ghost var was := manager.View();
      var result := manager.RotateRoomCodeAt(id, draws, at);
      ghost var dir := Rotate(was, id, draws, at).0;
      assert manager.View() == dir;
      if result.Success? && owner.Some? {
        SendToPeer(id, owner.value, RoomCodeRotated(result.value));
        assert manager.View() == dir;
      }
    }

    method Seated(conn: Connection, id: RoomId, peer: PeerId, hopping: bool, owner: Option<PeerId>)
      modifies this`session, registry
      ensures registry.Value() == WithMeta(Registered(old(registry.Value()), conn, id, peer), id, Meta(hopping, owner))
      ensures session == old(session)[conn := (id, peer)]
      ensures Emitted(old(registry.sent), registry.sent, Broadcasted(registry.Value(), id, PeerJoined(peer), Some(peer)))
    {
      Seat(conn, id, peer, hopping, owner);
      Broadcast(id, PeerJoined(peer), Some(peer));
    }

    /** Registers a peer that has just joined the room that was `r` before, and tells everyone concerned. */
    method Welcome(conn: Connection, id: RoomId, r: Room, code: RoomCode, peer: PeerId, draws: seq<RoomCode>, at: Time)
      returns (replies: seq<Message>)
      requires Valid()
      modifies this, manager`codeToId, manager.rooms.Values, registry
      ensures Valid()
      ensures var f := Joined(old(Value()), conn, old(Value()).dir, id, r, code, peer, draws, at);
              Value() == f.server && replies == f.replies && Emitted(old(registry.sent), registry.sent, f.sent)
    {
      ghost var dir := manager.View();
      Seated(conn, id, peer, r.hopping, r.OwnerPeerId());
      assert manager.View() == dir;
      ghost var between, g := registry.sent, registry.Value();
      if r.hopping {
        RotateAfterJoin(id, r.OwnerPeerId(), draws, at);
      }
      ghost var (rotated, result) := if r.hopping then Rotate(dir, id, draws, at) else (dir, Failure(Unauthorized));
      EmittedBoth(old(registry.sent), between, registry.sent, Broadcasted(g, id, PeerJoined(peer), Some(peer)),
                  if result.Success? && r.OwnerPeerId().Some?
                  then Sent(g, id, r.OwnerPeerId().value, RoomCodeRotated(result.value)) else {});
      replies := [JoinOk(if r.hopping then "" else code, peer, r.OwnerPeerId(), r.expiresAt, PeerIds(r.peers))];
    }

    method Admit(conn: Connection, id: RoomId, code: RoomCode, peer: PeerId, secret: Option<string>, key: RateKey,
                 draws: seq<RoomCode>, now: Timestamp, at: Time) returns (replies: seq<Message>)
      requires Valid() && id in Value().dir.rooms
      modifies this, manager`codeToId, manager.rooms.Values, registry
      ensures Valid()
      ensures var s := old(Value());
              var (dir, error) := Join(manager.config, s.dir, id, peer, false, secret, now, Some(key));
              var f := if error.Some? then Refuse(s, ErrorKind(error.value))
                       else Joined(s, conn, dir, id, s.dir.rooms[id], code, peer, draws, at);
              Value() == f.server && replies == f.replies && Emitted(old(registry.sent), registry.sent, f.sent)
    {
      ghost var was, known := manager.View(), registry.Value();
      assert was.rooms.Keys == manager.rooms.Keys;
      var r := manager.rooms[id].Value();
      assert r == was.rooms[id];
      var error := manager.JoinRoomWithPassword(id, peer, false, secret, now, Some(key));
      ghost var dir := Join(manager.config, was, id, peer, false, secret, now, Some(key)).0;
      assert manager.View() == dir && registry.Value() == known;
      if error.Some? {
        return [ErrorNotice(ErrorKind(error.value))];
      }
      replies := Welcome(conn, id, r, code, peer, draws, at);
      JoinedIgnoresDirectory(Gateway.Server(was, known, old(session)), conn, dir, id, r, code, peer, draws, at);
    }

    method JoinRoom(conn: Connection, refused: Option<string>, code: Option<RoomCode>, peer: PeerId, secret: Option<string>,
                    key: RateKey, draws: seq<RoomCode>, now: Timestamp, at: Time) returns (replies: seq<Message>)
      requires Valid()
      modifies this, manager`codeToId, manager.rooms.Values, registry
      ensures Valid()
      ensures var f := OnJoin(manager.config, old(Value()), conn, refused, code, peer, secret, key, draws, now, at);
              Value() == f.server && replies == f.replies && Emitted(old(registry.sent), registry.sent, f.sent)
      ensures Faithful(old(Value()), Value(), old(registry.sent), registry.sent)
    {
      hide Join, Joined, Emitted, Faithful;
      NothingEmitted(registry.sent);
      var refusal := JoinRefusal(conn, refused, code);
      if refusal.Some? {
        replies := [ErrorNotice(refusal.value)];
      } else {
        replies := Admit(conn, manager.codeToId[code.value], code.value, peer, secret, key, draws, now, at);
      }
      JoinFaithful(manager.config, old(Value()), conn, refused, code, peer, secret, key, draws, now, at, old(registry.sent), registry.sent);
    }

    /** The checks a join goes through before the room is asked. */
    method JoinRefusal(conn: Connection, refused: Option<string>, code: Option<RoomCode>) returns (refusal: Option<string>)
      requires Valid()
      ensures var s := Value();
              refusal == if IsBound(s, conn) then Some("ALREADY_IN_ROOM")
                         else if refused.Some? then refused
                         else if code.None? then Some("INVALID_ROOM_CODE")
                         else if code.value !in s.dir.index || s.dir.index[code.value] !in s.dir.rooms then Some("ROOM_NOT_FOUND")
                         else if s.dir.rooms[s.dir.index[code.value]].Terminated() then Some("ROOM_TERMINATED")
                         else if s.dir.rooms[s.dir.index[code.value]].isLocked then Some("ROOM_LOCKED")
                         else None
    {
      if conn in session || conn in registry.connectionRooms {
        return Some("ALREADY_IN_ROOM");
      }
      if refused.Some? {
        return refused;
      }
      if code.None? {
        return Some("INVALID_ROOM_CODE");
      }
      assert manager.View().rooms.Keys == manager.rooms.Keys;
      if code.value !in manager.codeToId || manager.codeToId[code.value] !in manager.rooms {
        return Some("ROOM_NOT_FOUND");
      }
      var room := manager.rooms[manager.codeToId[code.value]];
      if room.state == Closing || room.state == Destroyed {
        return Some("ROOM_TERMINATED");
      }
      return if room.isLocked then Some("ROOM_LOCKED") else None;
    }
  }

  lemma TransferKeepsRooms(d: Directory, id: RoomId, sender: PeerId, heir: PeerId)
    ensures Transfer(d, id, sender, heir).0.rooms.Keys == d.rooms.Keys
  {
  }

  lemma NobodyDeparts(d: Directory, id: RoomId, peer: PeerId)
    requires Leave(d, id, peer).1.None?
    ensures Leave(d, id, peer).0 == d
  {
  }

  /** What a departure does to the server, in terms of the outcome of leaving. */
  lemma DepartedIs(s: Gateway.Server, id: RoomId, peer: PeerId, hopping: bool)
    requires Leave(s.dir, id, peer).1.Some?
    requires var dir := Leave(s.dir, id, peer).0; hopping <==> id in dir.rooms && dir.rooms[id].hopping
    ensures var (dir, left) := Leave(s.dir, id, peer);
            var outcome := left.value;
            var g := if outcome.destroyed then Forgotten(s.registry, id)
                     else if outcome.newOwner.Some? then WithOwnerMeta(s.registry, id, outcome.newOwner)
                     else s.registry;
            && Departed(s, id, peer).server == s.(dir := dir, registry := g)
            && Departed(s, id, peer).sent ==
               if outcome.destroyed then Broadcasted(s.registry, id, RoomClosed(outcome.code, "room_empty"), None)
               else Broadcasted(s.registry, id, PeerLeft(peer), None)
                    + if outcome.newOwner.Some? then Announced(g, id, outcome.code, outcome.newOwner.value, hopping) else {}
  {
  }

  /** What follows a join depends on the directory only through its argument. */
  lemma JoinedIgnoresDirectory(s: Gateway.Server, conn: Connection, dir: Directory, id: RoomId, r: Room, code: RoomCode, peer: PeerId,
                               draws: seq<RoomCode>, at: Time)
    ensures Joined(s.(dir := dir), conn, dir, id, r, code, peer, draws, at) == Joined(s, conn, dir, id, r, code, peer, draws, at)
  {
  }
}
