/**
 Nothing happens to a room behind its members' backs: whatever changes its lock, its password, its owner
 or its lifecycle is announced in every channel of the room, and so is its end.
 */
module Announcements {
  import opened Basics
  import opened Rooms
  import opened RoomDirectory
  import opened RoomSteps
  import opened Sessions
  import opened Gateway
  import opened Routing
  import opened Service
  import opened Rosters
  import opened Deliveries

  /** The fields of a room whose changes are announced. */
  datatype Standing = Standing(locked: bool, password: Password, owner: Option<PeerId>, closing: bool)

  function StandingOf(r: Room): Standing
  {
    Standing(r.isLocked, r.password, r.OwnerPeerId(), r.state == Closing)
  }

  /** The peer behind the socket is told `m` about the room, as far as it may know. */
  predicate IsTold(d: Directory, sent: set<Delivery>, id: RoomId, peer: PeerId, conn: Connection, m: Message)
  {
    Delivery(id, peer, conn, Seen(d, id, peer, m)) in sent
  }

  /** Every change from `was` to `now` of a live room is announced. */
  ghost predicate ChangesTold(d: Directory, sent: set<Delivery>, id: RoomId, peer: PeerId, conn: Connection, was: Standing, now: Standing,
                              time: Timestamp)
    requires id in d.rooms
  {
    var code := d.rooms[id].code;
    && (was.locked != now.locked ==> IsTold(d, sent, id, peer, conn, RoomLockedNotice(code, now.locked)))
    && (was.password != now.password ==> IsTold(d, sent, id, peer, conn, RekeyNotice(code)))
    && (was.owner != now.owner && now.owner.Some? ==> IsTold(d, sent, id, peer, conn, RoomOwnerChanged(code, now.owner.value)))
    && (was.closing != now.closing ==> IsTold(d, sent, id, peer, conn, RoomClosing(code, time + 10, time)))
  }

  /** The channels of a live room hear of every change to it. */
  ghost predicate Candid(s: Server, f: Effect, id: RoomId, peer: PeerId, conn: Connection, now: Timestamp)
  {
    Hears(f.server, id, peer, conn) && id in s.dir.rooms ==>
      ChangesTold(f.server.dir, f.sent, id, peer, conn, StandingOf(s.dir.rooms[id]), StandingOf(f.server.dir.rooms[id]), now)
  }

  /** A broadcast reaches every channel, as its peer may see it. */
  lemma BroadcastTells(d: Directory, g: Registry, id: RoomId, m: Message, peer: PeerId, conn: Connection)
    requires Agreement(d, g) && peer in PeersIn(g, id) && PeersIn(g, id)[peer] == conn
    ensures IsTold(d, Broadcasted(g, id, m, None), id, peer, conn, m)
  {
    hide Agreement, Seen, Broadcasted;
    BroadcastIs(d, g, id, m, None, Delivery(id, peer, conn, Seen(d, id, peer, m)));
  }

  // Which operation changes what.

  lemma SweptStanding(c: Config, r: Room, now: Timestamp)
    ensures var s := StandingOf(Swept(c, r, now).0);
            s == StandingOf(r).(closing := s.closing)
  {
    hide FirstOwner;
    var next := Evaluate(c, r, now).0;
    assert next.peers == r.peers && next.isLocked == r.isLocked && next.password == r.password;
    hide Evaluate;
    FirstOwnerSame(r.peers, ExpireMutes(next, now).peers);
  }

  /** An operation changes no more of a room's standing than it is for. */
  lemma StandingAfter(c: Config, d: Directory, e: Event, id: RoomId)
    requires !e.op.CreateOp? && id in d.rooms && id in Apply(c, d, e).rooms
    ensures var was, now := StandingOf(d.rooms[id]), StandingOf(Apply(c, d, e).rooms[id]);
            && (was.locked != now.locked ==> e.op.LockOp? && e.op.id == id)
            && (was.password != now.password ==> e.op.RekeyOp? && e.op.id == id)
            && (was.owner != now.owner ==> (e.op.TransferOp? || e.op.LeaveOp?) && e.op.id == id)
            && (was.closing != now.closing ==> e.op.TickOp? || (e.op.CloseOp? && e.op.id == id))
  {
    if e.op.TickOp? {
      hide Swept, StandingOf, Dies;
      SweptStanding(c, d.rooms[id], e.now);
    } else if e.op.id == id {
      hide Apply;
      RoomAfter(c, d, e, id);
      BecomesStanding(c, d.rooms[id], Apply(c, d, e).rooms[id], e);
    } else {
      hide StandingOf;
    }
  }

  lemma BecomesStanding(c: Config, r: Room, s: Room, e: Event)
    requires Becomes(c, r, s, e) && !e.op.TickOp?
    ensures var was, now := StandingOf(r), StandingOf(s);
            && (was.locked != now.locked ==> e.op.LockOp?)
            && (was.password != now.password ==> e.op.RekeyOp?)
            && (was.owner != now.owner ==> e.op.TransferOp? || e.op.LeaveOp?)
            && (was.closing != now.closing ==> e.op.CloseOp?)
  {
    if !e.op.TransferOp? && !e.op.LeaveOp? {
      OwnerStays(c, r, s, e);
    }
    hide FirstOwner, Flagged, KeyOf, Position;
    if e.op.LeaveOp? || e.op.TransferOp? || e.op.KickOp? || e.op.ModerateOp? {
      assert s.isLocked == r.isLocked && s.password == r.password && s.state == r.state;
    }
  }

  // The handlers.

  lemma SameStandingIsCandid(s: Server, f: Effect, id: RoomId, peer: PeerId, conn: Connection, now: Timestamp)
    requires id in s.dir.rooms && id in f.server.dir.rooms ==> StandingOf(f.server.dir.rooms[id]) == StandingOf(s.dir.rooms[id])
    ensures Candid(s, f, id, peer, conn, now)
  {
  }

  lemma {:induction false} EntriesKeepStanding(c: Config, d: Directory, ops: seq<Op>, now: Timestamp, id: RoomId)
    requires id in d.rooms && forall op :: op in ops ==> op.JoinOp? || op.RotateOp?
    ensures id in ApplyAll(c, d, ops, now).rooms && StandingOf(ApplyAll(c, d, ops, now).rooms[id]) == StandingOf(d.rooms[id])
  {
    if ops != [] {
      hide Apply, StandingOf;
      var front, last := ops[..|ops| - 1], ops[|ops| - 1];
      assert last in ops;
      EntriesKeepStanding(c, d, front, now, id);
      SurvivorsOf(c, ApplyAll(c, d, front, now), Event(now, last));
      StandingAfter(c, ApplyAll(c, d, front, now), Event(now, last), id);
    }
  }

  lemma JoinIsCandid(c: Config, s: Server, e: Incoming, now: Timestamp, at: Time, id: RoomId, peer: PeerId, conn: Connection)
    requires e.JoinMessage?
    ensures Candid(s, OnJoin(c, s, e.conn, e.refused, e.code, e.peer, e.secret, e.key, e.draws, now, at), id, peer, conn, now)
  {
    hide OnJoin, StandingOf, ApplyAll, Candid;
    var f := OnJoin(c, s, e.conn, e.refused, e.code, e.peer, e.secret, e.key, e.draws, now, at);
    var ops := JoinIsOps(c, s, e.conn, e.refused, e.code, e.peer, e.secret, e.key, e.draws, now, at);
    if id in s.dir.rooms {
      EntriesKeepStanding(c, s.dir, ops, now, id);
    }
    SameStandingIsCandid(s, f, id, peer, conn, now);
  }

  lemma CreationIsCandid(c: Config, limits: Limits, s: Server, e: Incoming, now: Timestamp, at: Time, id: RoomId, peer: PeerId, conn: Connection)
    requires (e.CreateMessage? || e.HttpCreate?) && e.id !in s.dir.rooms
    ensures Candid(s, Handle(c, limits, s, e, now, at), id, peer, conn, now)
  {
    hide Handle, StandingOf, Candid;
    var f := Handle(c, limits, s, e, now, at);
    if f.server.dir != s.dir {
      HandleIsOp(c, limits, s, e, now, at);
      hide FirstUnused, NewRoom;
    }
    SameStandingIsCandid(s, f, id, peer, conn, now);
  }

  /** The handler announces in every channel of the room what its operation has changed there. */
  lemma BroadcastIsCandid(c: Config, s: Server, f: Effect, e: Event, m: Message, id: RoomId, peer: PeerId, conn: Connection)
    requires Agreement(f.server.dir, s.registry) && f.server.registry == s.registry && f.server.dir == Apply(c, s.dir, e)
    requires (e.op.LockOp? || e.op.RekeyOp? || e.op.CloseOp?) && f.sent == Broadcasted(s.registry, e.op.id, m, None)
    requires id == e.op.id && id in f.server.dir.rooms ==>
      var z := f.server.dir.rooms[id];
      m == if e.op.LockOp? then RoomLockedNotice(z.code, z.isLocked) else if e.op.RekeyOp? then RekeyNotice(z.code)
           else RoomClosing(z.code, e.now + 10, e.now)
    ensures Candid(s, f, id, peer, conn, e.now)
  {
    hide Apply, Agreement, Broadcasted, Seen, FirstOwner;
    if Hears(f.server, id, peer, conn) && id in s.dir.rooms {
      StandingAfter(c, s.dir, e, id);
      if id == e.op.id {
        BroadcastTells(f.server.dir, s.registry, id, m, peer, conn);
      }
    }
  }

  lemma LockIsCandid(c: Config, limits: Limits, s: Server, e: Incoming, now: Timestamp, at: Time, id: RoomId, peer: PeerId, conn: Connection)
    requires Agreement(s.dir, s.registry) && e.LockMessage?
    ensures Candid(s, Handle(c, limits, s, e, now, at), id, peer, conn, now)
  {
    var f := Handle(c, limits, s, e, now, at);
    hide Candid, Agreement, Discreet, Broadcasted, FirstOwner, StandingOf;
    HandleSound(c, limits, s, e, now, at);
    if f.server.dir == s.dir {
      SameStandingIsCandid(s, f, id, peer, conn, now);
    } else {
      var (room, sender) := s.session[e.conn];
      BroadcastIsCandid(c, s, f, Event(now, LockOp(room, sender, e.locked)),
                        RoomLockedNotice(f.server.dir.rooms[room].code, e.locked), id, peer, conn);
    }
  }

  lemma RekeyIsCandid(c: Config, limits: Limits, s: Server, e: Incoming, now: Timestamp, at: Time, id: RoomId, peer: PeerId, conn: Connection)
    requires Agreement(s.dir, s.registry) && e.RekeyMessage?
    ensures Candid(s, Handle(c, limits, s, e, now, at), id, peer, conn, now)
  {
    var f := Handle(c, limits, s, e, now, at);
    hide Candid, Agreement, Discreet, Broadcasted, FirstOwner, StandingOf;
    HandleSound(c, limits, s, e, now, at);
    if f.server.dir == s.dir {
      SameStandingIsCandid(s, f, id, peer, conn, now);
    } else {
      var (room, sender) := s.session[e.conn];
      BroadcastIsCandid(c, s, f, Event(now, RekeyOp(room, sender, e.newSecret)), RekeyNotice(f.server.dir.rooms[room].code), id, peer, conn);
    }
  }

  lemma HttpCloseIsCandid(c: Config, limits: Limits, s: Server, e: Incoming, now: Timestamp, at: Time, id: RoomId, peer: PeerId, conn: Connection)
    requires Agreement(s.dir, s.registry) && e.HttpClose?
    ensures Candid(s, Handle(c, limits, s, e, now, at), id, peer, conn, now)
  {
    var f := Handle(c, limits, s, e, now, at);
    hide Candid, Agreement, Discreet, Broadcasted, FirstOwner, StandingOf;
    HandleSound(c, limits, s, e, now, at);
    if f.server.dir == s.dir {
      SameStandingIsCandid(s, f, id, peer, conn, now);
    } else {
      var room := s.dir.index[e.roomCode];
      BroadcastIsCandid(c, s, f, Event(now, CloseOp(room, e.peer)), ClosingNotice(f.server.dir.rooms[room].code, now), id, peer, conn);
    }
  }

  /** The handlers whose operation changes nobody's standing. */
  lemma OthersAreCandid(c: Config, limits: Limits, s: Server, e: Incoming, now: Timestamp, at: Time, id: RoomId, peer: PeerId, conn: Connection)
    requires e.RelayMessage? || e.KickMessage? || e.ModerateMessage? || e.DetonateMessage? || e.AutoRotation? || e.HttpExtend?
    ensures Candid(s, Handle(c, limits, s, e, now, at), id, peer, conn, now)
  {
    hide Handle, StandingOf, Candid;
    var f := Handle(c, limits, s, e, now, at);
    if f.server.dir != s.dir {
      RelayLeavesRooms(c, limits, s, e, now, at);
      HandleIsOp(c, limits, s, e, now, at);
      hide Apply;
      if id in s.dir.rooms && id in f.server.dir.rooms {
        StandingAfter(c, s.dir, Event(now, OpOf(s, e, at)), id);
        assert StandingOf(f.server.dir.rooms[id]) == StandingOf(s.dir.rooms[id]);
      }
    }
    SameStandingIsCandid(s, f, id, peer, conn, now);
  }

  lemma RelayLeavesRooms(c: Config, limits: Limits, s: Server, e: Incoming, now: Timestamp, at: Time)
    ensures e.RelayMessage? ==> Handle(c, limits, s, e, now, at).server.dir == s.dir
  {
  }

  lemma TransferIsCandid(c: Config, limits: Limits, s: Server, e: Incoming, now: Timestamp, at: Time, id: RoomId, peer: PeerId, conn: Connection)
    requires Agreement(s.dir, s.registry) && e.TransferMessage?
    ensures Candid(s, Handle(c, limits, s, e, now, at), id, peer, conn, now)
  {
    var f := Handle(c, limits, s, e, now, at);
    hide Agreement, Discreet, Broadcasted, FirstOwner, Seen, Sent;
    HandleSound(c, limits, s, e, now, at);
    if f.server.dir == s.dir {
      SameStandingIsCandid(s, f, id, peer, conn, now);
    } else if Hears(f.server, id, peer, conn) && id in s.dir.rooms {
      var (room, sender) := s.session[e.conn];
      var code := s.dir.rooms[room].code;
      StandingAfter(c, s.dir, Event(now, TransferOp(room, sender, e.target)), id);
      if id == room {
        TransferOwner(s.dir.rooms[id], e.target);
        BroadcastTells(f.server.dir, f.server.registry, id, RoomOwnerChanged(code, e.target), peer, conn);
      }
    }
  }

  lemma DepartedIsCandid(s: Server, room: RoomId, gone: PeerId, id: RoomId, peer: PeerId, conn: Connection, now: Timestamp)
    requires Agreement(s.dir, s.registry)
    ensures Candid(s, Departed(s, room, gone), id, peer, conn, now)
  {
    var f := Departed(s, room, gone);
    var outcome := Leave(s.dir, room, gone).1;
    DepartedSound(s, room, gone);
    if outcome.None? {
      SameStandingIsCandid(s, f, id, peer, conn, now);
    } else if Hears(f.server, id, peer, conn) && id in s.dir.rooms {
      hide Agreement, Discreet, Seen, Broadcasted, Sent, FirstOwner, AfterLeave;
      if outcome.value.destroyed {
        assert id != room;
      } else {
        LeftBehind(s.dir, room, gone);
        LeftStanding(s.dir, room, gone, id);
        if id == room && outcome.value.newOwner.Some? {
          BroadcastTells(f.server.dir, f.server.registry, id, RoomOwnerChanged(outcome.value.code, outcome.value.newOwner.value), peer, conn);
        }
      }
    }
  }

  /** A departure changes nobody's standing but the owner of the room. */
  lemma LeftStanding(d: Directory, room: RoomId, gone: PeerId, id: RoomId)
    requires id in d.rooms && id in Leave(d, room, gone).0.rooms
    ensures var was, now := StandingOf(d.rooms[id]), StandingOf(Leave(d, room, gone).0.rooms[id]);
            now == was.(owner := now.owner)
  {
    hide FirstOwner, Flagged, KeyOf, Position;
  }

  lemma DisconnectIsCandid(s: Server, e: Incoming, id: RoomId, peer: PeerId, conn: Connection, now: Timestamp)
    requires Agreement(s.dir, s.registry) && e.Disconnect?
    ensures Candid(s, OnDisconnect(s, e.conn), id, peer, conn, now)
  {
    var f := OnDisconnect(s, e.conn);
    var closed := s.(registry := Disconnected(s.registry, e.conn), session := s.session - {e.conn});
    DisconnectedAgrees(s.dir, s.registry, e.conn);
    hide Departed, Disconnected, Agreement, StandingOf, ChangesTold;
    if e.conn in s.session {
      DepartedIsCandid(closed, s.session[e.conn].0, s.session[e.conn].1, id, peer, conn, now);
    } else if e.conn in s.registry.connections {
      DepartedIsCandid(closed, s.registry.connections[e.conn].0, s.registry.connections[e.conn].1, id, peer, conn, now);
    } else {
      SameStandingIsCandid(s, f, id, peer, conn, now);
    }
  }

  // Ticks.

  /** A room that a tick leaves in another state of closing has begun to close, and says so. */
  lemma ClosingBegins(c: Config, s: Server, later: Registry, now: Timestamp, id: RoomId)
    requires id in s.dir.rooms && !Dies(c, s.dir.rooms[id], now)
    requires (Swept(c, s.dir.rooms[id], now).0.state == Closing) != (s.dir.rooms[id].state == Closing)
    ensures Broadcasted(s.registry, id, ClosingNotice(s.dir.rooms[id].code, now), None) <= TickMail(c, s, later, now, id)
  {
    hide Broadcasted, MuteOver;
  }

  lemma TickMailIsSent(c: Config, s: Server, now: Timestamp, id: RoomId)
    requires id in s.dir.rooms
    ensures TickMail(c, s, OnTick(c, s, now).server.registry, now, id) <= OnTick(c, s, now).sent
  {
    hide TickMail, Dies;
  }

  lemma TickKeeps(c: Config, s: Server, now: Timestamp, id: RoomId)
    requires id in OnTick(c, s, now).server.dir.rooms
    ensures id in s.dir.rooms && !Dies(c, s.dir.rooms[id], now)
    ensures OnTick(c, s, now).server.dir.rooms[id] == Swept(c, s.dir.rooms[id], now).0
    ensures PeersIn(OnTick(c, s, now).server.registry, id) == PeersIn(s.registry, id)
  {
    hide Swept, TickMail;
  }

  lemma TickIsCandid(c: Config, s: Server, now: Timestamp, id: RoomId, peer: PeerId, conn: Connection)
    requires Agreement(s.dir, s.registry)
    ensures Candid(s, OnTick(c, s, now), id, peer, conn, now)
  {
    var f := OnTick(c, s, now);
    hide OnTick, Swept, Dies, Agreement, Broadcasted, FirstOwner, TickMail;
    if Hears(f.server, id, peer, conn) && id in s.dir.rooms {
      TickKeeps(c, s, now, id);
      SweptStanding(c, s.dir.rooms[id], now);
      SweepKeepsCode(c, s.dir.rooms[id], now);
      if (f.server.dir.rooms[id].state == Closing) != (s.dir.rooms[id].state == Closing) {
        var m := ClosingNotice(s.dir.rooms[id].code, now);
        ClosingBegins(c, s, f.server.registry, now, id);
        TickMailIsSent(c, s, now, id);
        BroadcastTells(s.dir, s.registry, id, m, peer, conn);
        StaysAsItIs(c, s.dir, Event(now, TickOp), id);
        TickIsApply(c, s, now);
        assert Seen(f.server.dir, id, peer, m) == Seen(s.dir, id, peer, m);
      }
    }
  }

  lemma TickIsApply(c: Config, s: Server, now: Timestamp)
    ensures OnTick(c, s, now).server.dir == Apply(c, s.dir, Event(now, TickOp))
  {
    hide TickMail;
  }

  lemma HandleIsCandid(c: Config, limits: Limits, s: Server, e: Incoming, now: Timestamp, at: Time, id: RoomId, peer: PeerId, conn: Connection)
    requires Agreement(s.dir, s.registry) && NamesFreshRoom(s, e)
    ensures Candid(s, Handle(c, limits, s, e, now, at), id, peer, conn, now)
  {
    hide Candid, Agreement, OnJoin, OnDisconnect, OnTick, OnCreate, OnRelay, OnRekey, OnKick, OnTransfer, OnLock, OnModerate, OnDetonate,
         OnAutoRotate, OnHttpCreate, OnHttpExtend, OnHttpClose;
    match e
    case JoinMessage(_, _, _, _, _, _, _) => JoinIsCandid(c, s, e, now, at, id, peer, conn);
    case CreateMessage(_, _, _, _, _, _, _, _) => CreationIsCandid(c, limits, s, e, now, at, id, peer, conn);
    case HttpCreate(_, _, _, _, _) => CreationIsCandid(c, limits, s, e, now, at, id, peer, conn);
    case LockMessage(_, _) => LockIsCandid(c, limits, s, e, now, at, id, peer, conn);
    case RekeyMessage(_, _) => RekeyIsCandid(c, limits, s, e, now, at, id, peer, conn);
    case HttpClose(_, _) => HttpCloseIsCandid(c, limits, s, e, now, at, id, peer, conn);
    case TransferMessage(_, _) => TransferIsCandid(c, limits, s, e, now, at, id, peer, conn);
    case Disconnect(_) => DisconnectIsCandid(s, e, id, peer, conn, now);
    case SweeperTick => TickIsCandid(c, s, now, id, peer, conn);
    case _ => OthersAreCandid(c, limits, s, e, now, at, id, peer, conn);
  }

  // The end of a room.

  /** The channels still open when the room ends: a closing socket has none. */
  function Audience(s: Server, e: Incoming): Registry
  {
    if e.Disconnect? then Disconnected(s.registry, e.conn) else s.registry
  }

  /** A farewell to the peer behind the socket, with the room's code as far as the peer may know it. */
  ghost predicate SaidFarewell(d: Directory, sent: set<Delivery>, id: RoomId, peer: PeerId, conn: Connection)
    requires id in d.rooms
  {
    || IsTold(d, sent, id, peer, conn, RoomDetonated(d.rooms[id].code))
    || exists reason :: IsTold(d, sent, id, peer, conn, RoomClosed(d.rooms[id].code, reason))
  }

  lemma EndingBegins(c: Config, s: Server, later: Registry, now: Timestamp, id: RoomId)
    requires id in s.dir.rooms && Dies(c, s.dir.rooms[id], now)
    ensures Broadcasted(s.registry, id, RoomClosed(s.dir.rooms[id].code, "lifetime_or_grace_period_expired"), None)
            <= TickMail(c, s, later, now, id)
  {
    hide Swept, Broadcasted, MuteOver;
  }

  lemma TickEnds(c: Config, s: Server, now: Timestamp, id: RoomId)
    requires id in s.dir.rooms && id !in OnTick(c, s, now).server.dir.rooms
    ensures Dies(c, s.dir.rooms[id], now)
  {
    hide Dies, TickMail, Swept;
  }

  lemma EndOfTick(c: Config, s: Server, now: Timestamp, id: RoomId, peer: PeerId, conn: Connection)
    requires Agreement(s.dir, s.registry) && Hears(s, id, peer, conn) && id !in OnTick(c, s, now).server.dir.rooms
    ensures SaidFarewell(s.dir, OnTick(c, s, now).sent, id, peer, conn)
  {
    hide Broadcasted, Agreement, Seen, OnTick, TickMail, Dies;
    var reason := "lifetime_or_grace_period_expired";
    BroadcastTells(s.dir, s.registry, id, RoomClosed(s.dir.rooms[id].code, reason), peer, conn);
    TickEnds(c, s, now, id);
    EndingBegins(c, s, OnTick(c, s, now).server.registry, now, id);
    TickMailIsSent(c, s, now, id);
    assert IsTold(s.dir, OnTick(c, s, now).sent, id, peer, conn, RoomClosed(s.dir.rooms[id].code, reason));
  }

  lemma EndOfDeparture(s: Server, room: RoomId, gone: PeerId, id: RoomId, peer: PeerId, conn: Connection)
    requires Agreement(s.dir, s.registry) && Hears(s, id, peer, conn) && id !in Departed(s, room, gone).server.dir.rooms
    ensures SaidFarewell(s.dir, Departed(s, room, gone).sent, id, peer, conn)
  {
    hide Broadcasted, Agreement, Seen, AfterLeave;
    var reason := "room_empty";
    BroadcastTells(s.dir, s.registry, id, RoomClosed(s.dir.rooms[id].code, reason), peer, conn);
    assert IsTold(s.dir, Departed(s, room, gone).sent, id, peer, conn, RoomClosed(s.dir.rooms[id].code, reason));
  }

  lemma EndOfDetonation(s: Server, gone: Connection, id: RoomId, peer: PeerId, conn: Connection)
    requires Agreement(s.dir, s.registry) && Hears(s, id, peer, conn) && id !in OnDetonate(s, gone).server.dir.rooms
    ensures SaidFarewell(s.dir, OnDetonate(s, gone).sent, id, peer, conn)
  {
    BroadcastTells(s.dir, s.registry, id, RoomDetonated(s.dir.rooms[id].code), peer, conn);
    hide Broadcasted, Agreement, Seen, FirstOwner;
  }

  lemma EndOfDisconnect(s: Server, gone: Connection, id: RoomId, peer: PeerId, conn: Connection)
    requires Agreement(s.dir, s.registry) && id in s.dir.rooms && id !in OnDisconnect(s, gone).server.dir.rooms
    requires peer in PeersIn(Disconnected(s.registry, gone), id) && PeersIn(Disconnected(s.registry, gone), id)[peer] == conn
    ensures SaidFarewell(s.dir, OnDisconnect(s, gone).sent, id, peer, conn)
  {
    var closed := s.(registry := Disconnected(s.registry, gone), session := s.session - {gone});
    DisconnectedAgrees(s.dir, s.registry, gone);
    hide Departed, Disconnected, Agreement, SaidFarewell;
    if gone in s.session {
      EndOfDeparture(closed, s.session[gone].0, s.session[gone].1, id, peer, conn);
    } else if gone in s.registry.connections {
      EndOfDeparture(closed, s.registry.connections[gone].0, s.registry.connections[gone].1, id, peer, conn);
    }
  }

  /** Only departures, detonations and ticks end a room. */
  lemma OthersEndNothing(c: Config, limits: Limits, s: Server, e: Incoming, now: Timestamp, at: Time)
    requires !e.Disconnect? && !e.DetonateMessage? && !e.SweeperTick?
    ensures s.dir.rooms.Keys <= Handle(c, limits, s, e, now, at).server.dir.rooms.Keys
  {
    hide Handle;
    if e.JoinMessage? {
      JoinEndsNothing(c, limits, s, e, now, at);
    } else if Handle(c, limits, s, e, now, at).server.dir != s.dir {
      RelayLeavesRooms(c, limits, s, e, now, at);
      HandleIsOp(c, limits, s, e, now, at);
      SurvivorsOf(c, s.dir, Event(now, OpOf(s, e, at)));
    }
  }

  lemma {:induction false} EntriesEndNothing(c: Config, d: Directory, ops: seq<Op>, now: Timestamp)
    requires forall op :: op in ops ==> op.JoinOp? || op.RotateOp?
    ensures d.rooms.Keys <= ApplyAll(c, d, ops, now).rooms.Keys
  {
    forall id | id in d.rooms
      ensures id in ApplyAll(c, d, ops, now).rooms
    {
      EntriesKeepStanding(c, d, ops, now, id);
    }
  }

  lemma JoinEndsNothing(c: Config, limits: Limits, s: Server, e: Incoming, now: Timestamp, at: Time)
    requires e.JoinMessage?
    ensures s.dir.rooms.Keys <= Handle(c, limits, s, e, now, at).server.dir.rooms.Keys
  {
    hide OnJoin, ApplyAll;
    var ops := JoinIsOps(c, s, e.conn, e.refused, e.code, e.peer, e.secret, e.key, e.draws, now, at);
    EntriesEndNothing(c, s.dir, ops, now);
  }

  lemma EndsTold(c: Config, limits: Limits, s: Server, e: Incoming, now: Timestamp, at: Time, id: RoomId, peer: PeerId, conn: Connection)
    requires Agreement(s.dir, s.registry) && id in s.dir.rooms && id !in Handle(c, limits, s, e, now, at).server.dir.rooms
    requires peer in PeersIn(Audience(s, e), id) && PeersIn(Audience(s, e), id)[peer] == conn
    ensures SaidFarewell(s.dir, Handle(c, limits, s, e, now, at).sent, id, peer, conn)
  {
    hide SaidFarewell, Agreement, OnDisconnect, OnDetonate, OnTick, Disconnected;
    if e.Disconnect? {
      EndOfDisconnect(s, e.conn, id, peer, conn);
    } else if e.DetonateMessage? {
      EndOfDetonation(s, e.conn, id, peer, conn);
    } else if e.SweeperTick? {
      EndOfTick(c, s, now, id, peer, conn);
    } else {
      hide Handle;
      OthersEndNothing(c, limits, s, e, now, at);
    }
  }

  /**
   After any run, whatever arrives next: every open channel of a room hears of every change to the room's
   lock, password, owner and closing, and, if the room ends, of its end.
   */
  lemma {:induction false} EverythingIsAnnounced(c: Config, limits: Limits, es: seq<Arrival>, e: Incoming, now: Timestamp, at: Time,
                                                 id: RoomId, peer: PeerId, conn: Connection)
    requires FreshRooms(c, limits, es) && NamesFreshRoom(Serve(c, limits, es), e) && id in Serve(c, limits, es).dir.rooms
    ensures var s := Serve(c, limits, es);
            var f := Handle(c, limits, s, e, now, at);
            if id in f.server.dir.rooms then
              Hears(f.server, id, peer, conn) ==>
                ChangesTold(f.server.dir, f.sent, id, peer, conn, StandingOf(s.dir.rooms[id]), StandingOf(f.server.dir.rooms[id]), now)
            else
              peer in PeersIn(Audience(s, e), id) && PeersIn(Audience(s, e), id)[peer] == conn ==>
                SaidFarewell(s.dir, f.sent, id, peer, conn)
  {
    RegistryFollowsManager(c, limits, es);
    var s := Serve(c, limits, es);
    hide Serve, FreshRooms, Handle, ChangesTold, SaidFarewell, Audience, StandingOf, Agreement;
    HandleIsCandid(c, limits, s, e, now, at, id, peer, conn);
    if id !in Handle(c, limits, s, e, now, at).server.dir.rooms
       && peer in PeersIn(Audience(s, e), id) && PeersIn(Audience(s, e), id)[peer] == conn {
      EndsTold(c, limits, s, e, now, at, id, peer, conn);
    }
  }
}
