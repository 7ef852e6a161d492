/**
 What arrives. Every channel of a room but the excepted one gets a broadcast, unchanged for the owner of
 the room and in a room that does not hop; and the owner of a hopping room is always told its code.
 */
module Deliveries {
  import opened Basics
  import opened Rooms
  import opened RoomDirectory
  import opened RoomSteps
  import opened RoomIndex
  import opened Sessions
  import opened Gateway
  import opened Wiring
  import opened Routing
  import opened Service

  /** The message with its code blanked; the acknowledgment to a room's creator has none blanked. */
  function Blanked(m: Message): Message
  {
    match m
    case JoinOk(_, peer, owner, expiresAt, others) => JoinOk("", peer, owner, expiresAt, others)
    case RoomLockedNotice(_, locked) => RoomLockedNotice("", locked)
    case RoomOwnerChanged(_, heir) => RoomOwnerChanged("", heir)
    case RekeyNotice(_) => RekeyNotice("")
    case RoomClosing(_, deadline, expiresAt) => RoomClosing("", deadline, expiresAt)
    case RoomClosed(_, reason) => RoomClosed("", reason)
    case RoomDetonated(_) => RoomDetonated("")
    case RoomCodeRotated(_) => RoomCodeRotated("")
    case _ => m
  }

  /** What a peer of the room gets to see of a message: all of it, unless the room hops and somebody else owns it. */
  function Seen(d: Directory, id: RoomId, peer: PeerId, m: Message): Message
  {
    if id in d.rooms && d.rooms[id].hopping && d.rooms[id].OwnerPeerId() != Some(peer) then Blanked(m) else m
  }

  lemma LetterIs(d: Directory, g: Registry, id: RoomId, peer: PeerId, m: Message)
    requires Agreement(d, g) && peer in PeersIn(g, id)
    ensures DeliveryTo(g, id, peer, m) == Delivery(id, peer, PeersIn(g, id)[peer], Seen(d, id, peer, m))
  {
  }

  /**
   In every state that can be reached, a broadcast puts into each channel of the room but that of the
   excepted peer what its peer gets to see of the message, and nothing else anywhere; a message to one
   peer does the same for that peer's channel.
   */
  lemma {:induction false} EveryoneIsTold(c: Config, limits: Limits, es: seq<Arrival>, id: RoomId, m: Message, except: Option<PeerId>,
                                          d: Delivery)
    requires FreshRooms(c, limits, es)
    ensures var s := Serve(c, limits, es);
            var channels := PeersIn(s.registry, id);
            && (d in Broadcasted(s.registry, id, m, except) <==>
                  d.peer in channels && except != Some(d.peer) && d == Delivery(id, d.peer, channels[d.peer], Seen(s.dir, id, d.peer, m)))
            && (d in Sent(s.registry, id, d.peer, m) <==>
                  d.peer in channels && d == Delivery(id, d.peer, channels[d.peer], Seen(s.dir, id, d.peer, m)))
  {
    RegistryFollowsManager(c, limits, es);
    var s := Serve(c, limits, es);
    hide Serve, FreshRooms;
    BroadcastIs(s.dir, s.registry, id, m, except, d);
    if d.peer in PeersIn(s.registry, id) {
      LetterIs(s.dir, s.registry, id, d.peer, m);
    }
  }

  lemma BroadcastIs(dir: Directory, g: Registry, id: RoomId, m: Message, except: Option<PeerId>, d: Delivery)
    requires Agreement(dir, g)
    ensures d in Broadcasted(g, id, m, except) <==>
              d.peer in PeersIn(g, id) && except != Some(d.peer)
              && d == Delivery(id, d.peer, PeersIn(g, id)[d.peer], Seen(dir, id, d.peer, m))
  {
    var peers := PeersIn(g, id).Keys - Skipped(except);
    hide Agreement, Seen, DeliveryTo;
    if d in Broadcasted(g, id, m, except) {
      var p :| p in peers && d == DeliveryTo(g, id, p, m);
      LetterIs(dir, g, id, p, m);
    }
    if d.peer in peers {
      LetterIs(dir, g, id, d.peer, m);
      assert d.peer in Letters(g, id, m);
    }
  }

  // Codes.

  /** The codes that deliveries bring to a peer of the room through a socket. */
  function CodesTo(sent: set<Delivery>, id: RoomId, peer: PeerId, conn: Connection): set<RoomCode>
  {
    set d | d in sent && d.room == id && d.peer == peer && d.to == conn && CodeIn(d.message) != "" :: CodeIn(d.message)
  }

  lemma CodesOfBoth(a: set<Delivery>, b: set<Delivery>, id: RoomId, peer: PeerId, conn: Connection)
    ensures CodesTo(a + b, id, peer, conn) == CodesTo(a, id, peer, conn) + CodesTo(b, id, peer, conn)
  {
  }

  /** The socket is the channel of the room's owner, as the registry has it. */
  predicate OwnersChannel(g: Registry, id: RoomId, peer: PeerId, conn: Connection)
  {
    peer in PeersIn(g, id) && PeersIn(g, id)[peer] == conn && !ShouldRedact(g, id, peer)
  }

  lemma OwnersLetter(g: Registry, id: RoomId, peer: PeerId, conn: Connection, m: Message)
    requires OwnersChannel(g, id, peer, conn)
    ensures DeliveryTo(g, id, peer, m) == Delivery(id, peer, conn, m)
  {
  }

  lemma CodesOfBroadcast(g: Registry, id: RoomId, m: Message, except: Option<PeerId>, room: RoomId, peer: PeerId, conn: Connection)
    requires room == id ==> OwnersChannel(g, id, peer, conn)
    ensures CodesTo(Broadcasted(g, id, m, except), room, peer, conn)
         == if room == id && except != Some(peer) && CodeIn(m) != "" then {CodeIn(m)} else {}
  {
    var sent := Broadcasted(g, id, m, except);
    if room == id {
      OwnersLetter(g, id, peer, conn, m);
      assert peer in Letters(g, id, m);
      assert except != Some(peer) ==> Delivery(id, peer, conn, m) in sent;
    }
    forall d | d in sent
      ensures d.room == id && (d.room == room && d.peer == peer ==> d.message == m && except != Some(peer))
    {
      var p :| p in PeersIn(g, id).Keys - Skipped(except) && d == DeliveryTo(g, id, p, m);
    }
  }

  lemma CodesOfSent(g: Registry, id: RoomId, to: PeerId, m: Message, room: RoomId, peer: PeerId, conn: Connection)
    requires room == id ==> OwnersChannel(g, id, peer, conn)
    ensures CodesTo(Sent(g, id, to, m), room, peer, conn)
         == if room == id && to == peer && CodeIn(m) != "" then {CodeIn(m)} else {}
  {
    if room == id && to == peer {
      OwnersLetter(g, id, peer, conn, m);
    }
  }

  /** The codes that the replies to a caller bring to a peer of the room through a socket. */
  function CodesReplied(z: Server, e: Incoming, replies: seq<Message>, id: RoomId, peer: PeerId, conn: Connection): set<RoomCode>
  {
    if (e.CreateMessage? || e.JoinMessage?) && e.conn == conn && conn in z.session && z.session[conn] == (id, peer)
    then set m | m in replies && CodeIn(m) != "" :: CodeIn(m)
    else {}
  }

  /** All the codes a step brings to a peer of the room through a socket. */
  function CodesOf(f: Effect, e: Incoming, id: RoomId, peer: PeerId, conn: Connection): set<RoomCode>
  {
    CodesTo(f.sent, id, peer, conn) + CodesReplied(f.server, e, f.replies, id, peer, conn)
  }

  /** The peer owns the live hopping room, and the socket is its channel. */
  predicate Presides(s: Server, id: RoomId, peer: PeerId, conn: Connection)
  {
    && id in s.dir.rooms && s.dir.rooms[id].hopping && s.dir.rooms[id].OwnerPeerId() == Some(peer)
    && peer in PeersIn(s.registry, id) && PeersIn(s.registry, id)[peer] == conn
  }

  /** The step tells the owner the room's code, or it moves neither code nor owner nor channel, and mentions no code. */
  ghost predicate Informs(s: Server, f: Effect, e: Incoming, id: RoomId, peer: PeerId, conn: Connection)
  {
    Presides(f.server, id, peer, conn) && f.server.dir.rooms[id].code != "" ==>
      || CodesOf(f, e, id, peer, conn) == {f.server.dir.rooms[id].code}
      || (CodesOf(f, e, id, peer, conn) == {} && Presides(s, id, peer, conn) && s.dir.rooms[id].code == f.server.dir.rooms[id].code)
  }

  lemma PresidesUnredacted(s: Server, id: RoomId, peer: PeerId, conn: Connection)
    requires Agreement(s.dir, s.registry) && Presides(s, id, peer, conn)
    ensures OwnersChannel(s.registry, id, peer, conn)
  {
  }

  /** A handler that broadcasts to one room and otherwise changes only what neither code nor owner depends on. */
  lemma QuietInforms(s: Server, dir: Directory, e: Incoming, room: RoomId, m: Message, except: Option<PeerId>,
                     id: RoomId, peer: PeerId, conn: Connection)
    requires Agreement(s.dir, s.registry) && !e.CreateMessage? && !e.JoinMessage?
    requires id in dir.rooms ==> id in s.dir.rooms && dir.rooms[id].code == s.dir.rooms[id].code && MetaOf(dir.rooms[id]) == MetaOf(s.dir.rooms[id])
    requires room in dir.rooms ==> CodeIn(m) == "" || (CodeIn(m) == dir.rooms[room].code && except.None?)
    ensures Informs(s, Effect(s.(dir := dir), Broadcasted(s.registry, room, m, except), []), e, id, peer, conn)
  {
    var f := Effect(s.(dir := dir), Broadcasted(s.registry, room, m, except), []);
    if Presides(f.server, id, peer, conn) {
      assert Presides(s, id, peer, conn);
      PresidesUnredacted(s, id, peer, conn);
      CodesOfBroadcast(s.registry, room, m, except, id, peer, conn);
      assert CodesOf(f, e, id, peer, conn) == CodesTo(f.sent, id, peer, conn);
    }
  }

  lemma RefusalInforms(s: Server, e: Incoming, kind: string, id: RoomId, peer: PeerId, conn: Connection)
    ensures Informs(s, Refuse(s, kind), e, id, peer, conn)
  {
    assert CodesOf(Refuse(s, kind), e, id, peer, conn) == {};
  }

  /** Events that rotate nothing and hand nothing over leave a surviving room's code, owner and hopping alone. */
  lemma StaysAsItIs(c: Config, d: Directory, e: Event, id: RoomId)
    requires !e.op.CreateOp? && !e.op.RotateOp? && !e.op.TransferOp? && !e.op.LeaveOp?
    ensures var z := Apply(c, d, e);
            id in z.rooms ==> id in d.rooms && z.rooms[id].code == d.rooms[id].code && MetaOf(z.rooms[id]) == MetaOf(d.rooms[id])
  {
    var z := Apply(c, d, e);
    if id in z.rooms {
      hide Apply;
      RoomAfter(c, d, e, id);
      hide Becomes;
      BecomesKeepsCode(c, d.rooms[id], z.rooms[id], e);
      HoppingStays(c, d.rooms[id], z.rooms[id], e);
      OwnerStays(c, d.rooms[id], z.rooms[id], e);
    }
  }

  lemma RekeyInforms(c: Config, s: Server, e: Incoming, id: RoomId, peer: PeerId, conn: Connection)
    requires Agreement(s.dir, s.registry) && e.RekeyMessage?
    ensures Informs(s, OnRekey(s, e.conn, e.newSecret), e, id, peer, conn)
  {
    if e.conn in s.session {
      var (room, sender) := s.session[e.conn];
      var dir := RekeyRoom(s.dir, room, sender, e.newSecret).0;
      StaysAsItIs(c, s.dir, Event(0, RekeyOp(room, sender, e.newSecret)), id);
      hide Informs, Agreement, MetaOf, Rekey;
      if room in dir.rooms {
        QuietInforms(s, dir, e, room, RekeyNotice(dir.rooms[room].code), None, id, peer, conn);
      }
      RefusalsInform(s, OnRekey(s, e.conn, e.newSecret), e, id, peer, conn);
    } else {
      RefusalInforms(s, e, "NOT_IN_ROOM", id, peer, conn);
    }
  }

  /** A handler that refuses tells nobody anything. */
  lemma RefusalsInform(s: Server, f: Effect, e: Incoming, id: RoomId, peer: PeerId, conn: Connection)
    ensures |f.replies| == 1 && f.replies[0].ErrorNotice? && f == Refuse(s, f.replies[0].kind) ==> Informs(s, f, e, id, peer, conn)
  {
    if |f.replies| == 1 && f.replies[0].ErrorNotice? && f == Refuse(s, f.replies[0].kind) {
      RefusalInforms(s, e, f.replies[0].kind, id, peer, conn);
    }
  }

  lemma LockInforms(c: Config, s: Server, e: Incoming, id: RoomId, peer: PeerId, conn: Connection)
    requires Agreement(s.dir, s.registry) && e.LockMessage?
    ensures Informs(s, OnLock(s, e.conn, e.locked), e, id, peer, conn)
  {
    if e.conn in s.session && Permits(s.dir, s.session[e.conn].0, s.session[e.conn].1) {
      var (room, sender) := s.session[e.conn];
      var dir := LockRoom(s.dir, room, sender, e.locked).0;
      StaysAsItIs(c, s.dir, Event(0, LockOp(room, sender, e.locked)), id);
      hide Informs, Agreement, MetaOf;
      QuietInforms(s, dir, e, room, RoomLockedNotice(dir.rooms[room].code, e.locked), None, id, peer, conn);
    } else {
      RefusalsInform(s, OnLock(s, e.conn, e.locked), e, id, peer, conn);
    }
  }

  lemma NoCodesSent(g: Registry, room: RoomId, to: PeerId, m: Message, id: RoomId, peer: PeerId, conn: Connection)
    requires CodeIn(m) == "" && !m.RoomCreated?
    ensures CodesTo(Sent(g, room, to, m), id, peer, conn) == {}
  {
    RedactionRemovesCode(m);
  }

  lemma NoCodes(g: Registry, room: RoomId, m: Message, except: Option<PeerId>, id: RoomId, peer: PeerId, conn: Connection)
    requires CodeIn(m) == "" && !m.RoomCreated?
    ensures CodesTo(Broadcasted(g, room, m, except), id, peer, conn) == {}
  {
    forall d | d in Broadcasted(g, room, m, except)
      ensures CodeIn(d.message) == ""
    {
      var p :| p in PeersIn(g, room).Keys - Skipped(except) && d == DeliveryTo(g, room, p, m);
      RedactionRemovesCode(m);
    }
  }

  /** A handler that sends no codes and moves neither code nor owner. */
  lemma CodelessInforms(s: Server, f: Effect, e: Incoming, id: RoomId, peer: PeerId, conn: Connection)
    requires f.server.registry == s.registry && CodesTo(f.sent, id, peer, conn) == {} && !e.CreateMessage? && !e.JoinMessage?
    requires id in f.server.dir.rooms ==> id in s.dir.rooms && f.server.dir.rooms[id].code == s.dir.rooms[id].code
                                          && MetaOf(f.server.dir.rooms[id]) == MetaOf(s.dir.rooms[id])
    ensures Informs(s, f, e, id, peer, conn)
  {
    assert CodesOf(f, e, id, peer, conn) == {};
  }

  lemma ModerateInforms(c: Config, s: Server, e: Incoming, id: RoomId, peer: PeerId, conn: Connection)
    requires Agreement(s.dir, s.registry) && e.ModerateMessage?
    ensures Informs(s, OnModerate(s, e.conn, e.target, e.moderation), e, id, peer, conn)
  {
    hide Moderated, Informs, MetaOf, CodesTo, Broadcasted, FirstOwner, Agreement;
    var f := OnModerate(s, e.conn, e.target, e.moderation);
    RefusalsInform(s, f, e, id, peer, conn);
    if e.conn in s.session && f.replies == [] {
      var (room, sender) := s.session[e.conn];
      StaysAsItIs(c, s.dir, Event(0, ModerateOp(room, sender, e.target, e.moderation)), id);
      NoticeIsNoAcknowledgment(e.target, e.moderation);
      assert CodeIn(ModerationNotice(e.target, e.moderation)) == "";
      NoCodes(s.registry, room, ModerationNotice(e.target, e.moderation), None, id, peer, conn);
      CodelessInforms(s, f, e, id, peer, conn);
    }
  }

  lemma KickInforms(c: Config, s: Server, e: Incoming, id: RoomId, peer: PeerId, conn: Connection)
    requires Agreement(s.dir, s.registry) && e.KickMessage?
    ensures Informs(s, OnKick(s, e.conn, e.target), e, id, peer, conn)
  {
    hide WithoutPeer, Informs, MetaOf, CodesTo, Sent, Broadcasted, FirstOwner, Agreement;
    var f := OnKick(s, e.conn, e.target);
    RefusalsInform(s, f, e, id, peer, conn);
    if e.conn in s.session && f.replies == [] {
      var (room, sender) := s.session[e.conn];
      StaysAsItIs(c, s.dir, Event(0, KickOp(room, sender, e.target)), id);
      NoCodes(s.registry, room, PeerLeft(e.target), Some(e.target), id, peer, conn);
      NoCodesSent(s.registry, room, e.target, ErrorNotice("KICKED_FROM_ROOM"), id, peer, conn);
      CodesOfBoth(Sent(s.registry, room, e.target, ErrorNotice("KICKED_FROM_ROOM")),
                  Broadcasted(s.registry, room, PeerLeft(e.target), Some(e.target)), id, peer, conn);
      CodelessInforms(s, f, e, id, peer, conn);
    }
  }

  lemma RelayInforms(s: Server, e: Incoming, id: RoomId, peer: PeerId, conn: Connection)
    requires Agreement(s.dir, s.registry) && e.RelayMessage?
    ensures Informs(s, OnRelay(s, e.conn, e.target), e, id, peer, conn)
  {
    var f := OnRelay(s, e.conn, e.target);
    if Presides(f.server, id, peer, conn) {
      PresidesUnredacted(s, id, peer, conn);
      if e.conn in s.session {
        CodesOfSent(s.registry, s.session[e.conn].0, e.target, Relayed(s.session[e.conn].1), id, peer, conn);
      }
      assert CodesOf(f, e, id, peer, conn) == {};
    }
  }

  lemma AnnouncedCodes(g: Registry, room: RoomId, code: RoomCode, heir: PeerId, hopping: bool, id: RoomId, peer: PeerId, conn: Connection)
    requires id == room ==> OwnersChannel(g, id, peer, conn)
    ensures CodesTo(Announced(g, room, code, heir, hopping), id, peer, conn) == if id == room && code != "" then {code} else {}
  {
    CodesOfBroadcast(g, room, RoomOwnerChanged(code, heir), None, id, peer, conn);
    CodesOfSent(g, room, heir, RoomCodeRotated(code), id, peer, conn);
    CodesOfBoth(Broadcasted(g, room, RoomOwnerChanged(code, heir), None), Sent(g, room, heir, RoomCodeRotated(code)), id, peer, conn);
  }

  /** Handing a room over tells its new owner the code. */
  lemma HandoverInforms(s: Server, z: Server, e: Incoming, sent: set<Delivery>, room: RoomId, code: RoomCode, heir: PeerId, hopping: bool,
                        id: RoomId, peer: PeerId, conn: Connection)
    requires Agreement(z.dir, z.registry) && !e.CreateMessage? && !e.JoinMessage?
    requires room in z.dir.rooms && z.dir.rooms[room].code == code
    requires Presides(z, id, peer, conn) && id != room ==> Presides(s, id, peer, conn) && s.dir.rooms[id].code == z.dir.rooms[id].code
    requires Presides(z, id, peer, conn) ==>
      CodesTo(sent, id, peer, conn) == CodesTo(Announced(z.registry, room, code, heir, hopping), id, peer, conn)
    ensures Informs(s, Effect(z, sent, []), e, id, peer, conn)
  {
    var f := Effect(z, sent, []);
    if Presides(z, id, peer, conn) {
      PresidesUnredacted(z, id, peer, conn);
      AnnouncedCodes(z.registry, room, code, heir, hopping, id, peer, conn);
      assert CodesOf(f, e, id, peer, conn) == CodesTo(sent, id, peer, conn);
    }
  }

  lemma TransferInforms(s: Server, e: Incoming, id: RoomId, peer: PeerId, conn: Connection)
    requires Agreement(s.dir, s.registry) && e.TransferMessage?
    ensures Informs(s, OnTransfer(s, e.conn, e.target), e, id, peer, conn)
  {
    hide Agreement, Announced, CodesTo, Informs, Sound, Discreet, FirstOwner, Flagged, KeyOf;
    var f := OnTransfer(s, e.conn, e.target);
    RefusalsInform(s, f, e, id, peer, conn);
    if e.conn in s.session && f.replies == [] {
      var (room, sender) := s.session[e.conn];
      var r := s.dir.rooms[room];
      TransferSound(s, e.conn, e.target);
      SoundAgrees(s, f);
      HandoverInforms(s, f.server, e, f.sent, room, r.code, e.target, f.server.dir.rooms[room].hopping, id, peer, conn);
    }
  }

  lemma SoundAgrees(s: Server, f: Effect)
    requires Sound(s, f)
    ensures Agreement(f.server.dir, f.server.registry)
  {
  }

  lemma DetonateInforms(s: Server, e: Incoming, id: RoomId, peer: PeerId, conn: Connection)
    requires Agreement(s.dir, s.registry) && e.DetonateMessage?
    ensures Informs(s, OnDetonate(s, e.conn), e, id, peer, conn)
  {
    var f := OnDetonate(s, e.conn);
    RefusalsInform(s, f, e, id, peer, conn);
    if e.conn in s.session && f.replies == [] && Presides(f.server, id, peer, conn) {
      var room := s.session[e.conn].0;
      RemovalTells(s, e, f.server, room, RoomDetonated(s.dir.rooms[room].code), id, peer, conn);
    }
  }

  /** What is said of a room that goes says nothing of those that stay. */
  lemma RemovalTells(s: Server, e: Incoming, z: Server, room: RoomId, m: Message, id: RoomId, peer: PeerId, conn: Connection)
    requires Agreement(s.dir, s.registry) && !e.CreateMessage? && !e.JoinMessage?
    requires room !in z.dir.rooms && z.registry == Forgotten(s.registry, room)
    requires forall other :: other in z.dir.rooms ==> other in s.dir.rooms && z.dir.rooms[other] == s.dir.rooms[other]
    ensures Informs(s, Effect(z, Broadcasted(s.registry, room, m, None), []), e, id, peer, conn)
  {
    var f := Effect(z, Broadcasted(s.registry, room, m, None), []);
    if Presides(z, id, peer, conn) {
      CodesOfBroadcast(s.registry, room, m, None, id, peer, conn);
      assert CodesOf(f, e, id, peer, conn) == {};
    }
  }

  lemma SilentInforms(s: Server, f: Effect, e: Incoming, id: RoomId, peer: PeerId, conn: Connection)
    requires f.sent == {} && !e.CreateMessage? && !e.JoinMessage?
    requires Presides(f.server, id, peer, conn) ==> Presides(s, id, peer, conn) && s.dir.rooms[id].code == f.server.dir.rooms[id].code
    ensures Informs(s, f, e, id, peer, conn)
  {
    assert CodesOf(f, e, id, peer, conn) == {};
  }

  /** What is left of a room that somebody leaves. */
  lemma LeftBehind(d: Directory, id: RoomId, gone: PeerId)
    requires Leave(d, id, gone).1.Some? && !Leave(d, id, gone).1.value.destroyed
    ensures var (z, outcome) := Leave(d, id, gone);
            && id in d.rooms && z.rooms.Keys == d.rooms.Keys && outcome.value.code == d.rooms[id].code
            && (forall other :: other in d.rooms && other != id ==> z.rooms[other] == d.rooms[other])
            && z.rooms[id].code == d.rooms[id].code && z.rooms[id].hopping == d.rooms[id].hopping
            && z.rooms[id].OwnerPeerId() == if outcome.value.newOwner.Some? then outcome.value.newOwner else d.rooms[id].OwnerPeerId()
  {
    LeaveOwner(d.rooms[id], gone);
  }

  lemma DepartedInforms(s: Server, e: Incoming, room: RoomId, gone: PeerId, id: RoomId, peer: PeerId, conn: Connection)
    requires Agreement(s.dir, s.registry) && e.Disconnect?
    ensures Informs(s, Departed(s, room, gone), e, id, peer, conn)
  {
    var f := Departed(s, room, gone);
    var (dir, outcome) := Leave(s.dir, room, gone);
    if outcome.None? {
      hide Informs;
      SilentInforms(s, f, e, id, peer, conn);
    } else if outcome.value.destroyed {
      hide Informs;
      RemovalTells(s, e, f.server, room, RoomClosed(outcome.value.code, "room_empty"), id, peer, conn);
    } else {
      LeftBehind(s.dir, room, gone);
      DepartedSound(s, room, gone);
      SoundAgrees(s, f);
      hide Leave, Sound, Discreet, Agreement, Informs, FirstOwner;
      SomebodyLeft(s, f, e, dir, room, gone, outcome.value, id, peer, conn);
    }
  }

  lemma SomebodyLeft(s: Server, f: Effect, e: Incoming, dir: Directory, room: RoomId, gone: PeerId, outcome: LeaveOutcome,
                     id: RoomId, peer: PeerId, conn: Connection)
    requires Agreement(s.dir, s.registry) && Agreement(f.server.dir, f.server.registry) && e.Disconnect?
    requires room in dir.rooms && room in s.dir.rooms && dir.rooms.Keys == s.dir.rooms.Keys
    requires outcome.code == dir.rooms[room].code == s.dir.rooms[room].code
    requires forall other :: other in dir.rooms && other != room ==> dir.rooms[other] == s.dir.rooms[other]
    requires dir.rooms[room].hopping == s.dir.rooms[room].hopping
    requires outcome.newOwner.None? ==> dir.rooms[room].OwnerPeerId() == s.dir.rooms[room].OwnerPeerId()
    requires var left := Broadcasted(s.registry, room, PeerLeft(gone), None);
             if outcome.newOwner.None? then f == Effect(s.(dir := dir), left, []) else
               var g := WithOwnerMeta(s.registry, room, outcome.newOwner);
               f == Effect(s.(dir := dir, registry := g),
                           left + Announced(g, room, outcome.code, outcome.newOwner.value, dir.rooms[room].hopping), [])
    ensures Informs(s, f, e, id, peer, conn)
  {
    var left := Broadcasted(s.registry, room, PeerLeft(gone), None);
    hide FirstOwner, Agreement, Announced, Broadcasted;
    NoCodes(s.registry, room, PeerLeft(gone), None, id, peer, conn);
    if outcome.newOwner.None? {
      assert CodesOf(f, e, id, peer, conn) == CodesTo(left, id, peer, conn);
    } else {
      var g := f.server.registry;
      CodesOfBoth(left, Announced(g, room, outcome.code, outcome.newOwner.value, dir.rooms[room].hopping), id, peer, conn);
      HandoverInforms(s, f.server, e, f.sent, room, outcome.code, outcome.newOwner.value, dir.rooms[room].hopping, id, peer, conn);
    }
  }

  lemma DisconnectInforms(s: Server, e: Incoming, id: RoomId, peer: PeerId, conn: Connection)
    requires Agreement(s.dir, s.registry) && e.Disconnect?
    ensures Informs(s, OnDisconnect(s, e.conn), e, id, peer, conn)
  {
    var closed := s.(registry := Disconnected(s.registry, e.conn), session := s.session - {e.conn});
    DisconnectedAgrees(s.dir, s.registry, e.conn);
    FewerPresides(s, closed, e.conn, id, peer, conn);
    hide Presides, CodesOf, Departed, Disconnected, Agreement;
    if e.conn in s.session {
      DepartedInforms(closed, e, s.session[e.conn].0, s.session[e.conn].1, id, peer, conn);
    } else if e.conn in s.registry.connections {
      DepartedInforms(closed, e, s.registry.connections[e.conn].0, s.registry.connections[e.conn].1, id, peer, conn);
    } else {
      SilentInforms(s, Effect(closed, {}, []), e, id, peer, conn);
    }
  }

  lemma FewerPresides(s: Server, closed: Server, gone: Connection, id: RoomId, peer: PeerId, conn: Connection)
    requires closed.dir == s.dir && closed.registry == Disconnected(s.registry, gone)
    ensures Presides(closed, id, peer, conn) ==> Presides(s, id, peer, conn)
  {
  }

  lemma ElsewhereMail(c: Config, s: Server, later: Registry, now: Timestamp, room: RoomId, d: Delivery)
    requires room in s.dir.rooms && d in TickMail(c, s, later, now, room)
    ensures d.room == room
  {
  }

  /** The mail of a tick mentions no code of a room but its own. */
  lemma TickMailCodes(c: Config, s: Server, later: Registry, now: Timestamp, id: RoomId, peer: PeerId, conn: Connection, d: Delivery)
    requires id in s.dir.rooms && OwnersChannel(s.registry, id, peer, conn)
    requires d in TickMail(c, s, later, now, id) && d.peer == peer && CodeIn(d.message) != ""
    ensures CodeIn(d.message) == s.dir.rooms[id].code
  {
    var r := s.dir.rooms[id];
    hide Swept, MuteOver;
    OwnersLetter(s.registry, id, peer, conn, ClosingNotice(r.code, now));
    OwnersLetter(s.registry, id, peer, conn, RoomClosed(r.code, "lifetime_or_grace_period_expired"));
    forall i, p | 0 <= i < |r.peers| && p in PeersIn(later, id)
      ensures CodeIn(DeliveryTo(later, id, p, PeerUnmuted(r.peers[i].id)).message) == ""
    {
      RedactionRemovesCode(PeerUnmuted(r.peers[i].id));
    }
    hide DeliveryTo, Redact, ShouldRedact;
  }

  lemma TickCodes(c: Config, s: Server, later: Registry, now: Timestamp, sent: set<Delivery>, id: RoomId, peer: PeerId, conn: Connection)
    requires id in s.dir.rooms && OwnersChannel(s.registry, id, peer, conn)
    requires forall d :: d in sent ==> exists room :: room in s.dir.rooms && d in TickMail(c, s, later, now, room)
    ensures CodesTo(sent, id, peer, conn) <= {s.dir.rooms[id].code}
  {
    hide TickMail, OwnersChannel;
    forall d | d in sent && d.room == id && d.peer == peer && d.to == conn && CodeIn(d.message) != ""
      ensures CodeIn(d.message) == s.dir.rooms[id].code
    {
      var room :| room in s.dir.rooms && d in TickMail(c, s, later, now, room);
      ElsewhereMail(c, s, later, now, room, d);
      TickMailCodes(c, s, later, now, id, peer, conn, d);
    }
  }

  lemma TickSends(c: Config, s: Server, now: Timestamp, d: Delivery)
    ensures var f := OnTick(c, s, now);
            d in f.sent ==> exists room :: room in s.dir.rooms && d in TickMail(c, s, f.server.registry, now, room)
  {
    hide TickMail, Dies;
  }

  lemma TickPresides(c: Config, s: Server, now: Timestamp, id: RoomId, peer: PeerId, conn: Connection)
    requires Presides(OnTick(c, s, now).server, id, peer, conn)
    ensures Presides(s, id, peer, conn) && id in s.dir.rooms && id in OnTick(c, s, now).server.dir.rooms
    ensures s.dir.rooms[id].code == OnTick(c, s, now).server.dir.rooms[id].code
  {
    StaysAsItIs(c, s.dir, Event(now, TickOp), id);
    hide TickMail, Dies, Swept, FirstOwner;
  }

  lemma TickSentCodes(c: Config, s: Server, now: Timestamp, id: RoomId, peer: PeerId, conn: Connection)
    requires id in s.dir.rooms && OwnersChannel(s.registry, id, peer, conn)
    ensures CodesTo(OnTick(c, s, now).sent, id, peer, conn) <= {s.dir.rooms[id].code}
  {
    var f := OnTick(c, s, now);
    hide OnTick, CodesTo, TickMail, OwnersChannel;
    forall d | d in f.sent
      ensures exists room :: room in s.dir.rooms && d in TickMail(c, s, f.server.registry, now, room)
    {
      TickSends(c, s, now, d);
    }
    TickCodes(c, s, f.server.registry, now, f.sent, id, peer, conn);
  }

  lemma TickInforms(c: Config, s: Server, e: Incoming, now: Timestamp, id: RoomId, peer: PeerId, conn: Connection)
    requires Agreement(s.dir, s.registry) && e.SweeperTick?
    ensures Informs(s, OnTick(c, s, now), e, id, peer, conn)
  {
    var f := OnTick(c, s, now);
    hide OnTick, CodesTo, Agreement, OwnersChannel, Presides;
    if Presides(f.server, id, peer, conn) {
      TickPresides(c, s, now, id, peer, conn);
      PresidesUnredacted(s, id, peer, conn);
      TickSentCodes(c, s, now, id, peer, conn);
      assert CodesOf(f, e, id, peer, conn) == CodesTo(f.sent, id, peer, conn);
    }
  }

  lemma AutoRotateInforms(c: Config, s: Server, e: Incoming, at: Time, id: RoomId, peer: PeerId, conn: Connection)
    requires Agreement(s.dir, s.registry) && e.AutoRotation?
    ensures Informs(s, OnAutoRotate(s, e.id, e.draws, at), e, id, peer, conn)
  {
    var f := OnAutoRotate(s, e.id, e.draws, at);
    var (dir, result) := Rotate(s.dir, e.id, e.draws, at);
    if Presides(f.server, id, peer, conn) {
      assert Presides(s, id, peer, conn);
      PresidesUnredacted(s, id, peer, conn);
      if f.sent != {} {
        CodesOfSent(s.registry, e.id, s.dir.rooms[e.id].OwnerPeerId().value, RoomCodeRotated(result.value), id, peer, conn);
      }
      assert CodesOf(f, e, id, peer, conn) == CodesTo(f.sent, id, peer, conn);
    }
  }

  lemma HttpCreateInforms(c: Config, limits: Limits, s: Server, e: Incoming, now: Timestamp, at: Time, id: RoomId, peer: PeerId, conn: Connection)
    requires e.HttpCreate? && e.id !in s.dir.rooms
    ensures Informs(s, OnHttpCreate(c, limits, s, e.id, e.draws, e.owner, e.key, e.password, now, at), e, id, peer, conn)
  {
    SilentInforms(s, OnHttpCreate(c, limits, s, e.id, e.draws, e.owner, e.key, e.password, now, at), e, id, peer, conn);
  }

  lemma HttpExtendInforms(c: Config, s: Server, e: Incoming, id: RoomId, peer: PeerId, conn: Connection)
    requires e.HttpExtend?
    ensures Informs(s, OnHttpExtend(c, s, e.roomCode, e.peer), e, id, peer, conn)
  {
    if e.roomCode in s.dir.index {
      StaysAsItIs(c, s.dir, Event(0, ExtendOp(s.dir.index[e.roomCode], e.peer)), id);
    }
    SilentInforms(s, OnHttpExtend(c, s, e.roomCode, e.peer), e, id, peer, conn);
  }

  lemma HttpCloseInforms(c: Config, s: Server, e: Incoming, now: Timestamp, id: RoomId, peer: PeerId, conn: Connection)
    requires Agreement(s.dir, s.registry) && e.HttpClose?
    ensures Informs(s, OnHttpClose(c, s, e.roomCode, e.peer, now), e, id, peer, conn)
  {
    var f := OnHttpClose(c, s, e.roomCode, e.peer, now);
    if f.sent == {} {
      if e.roomCode in s.dir.index {
        StaysAsItIs(c, s.dir, Event(now, CloseOp(s.dir.index[e.roomCode], e.peer)), id);
      }
      SilentInforms(s, f, e, id, peer, conn);
    } else {
      var room := s.dir.index[e.roomCode];
      StaysAsItIs(c, s.dir, Event(now, CloseOp(room, e.peer)), id);
      QuietInforms(s, f.server.dir, e, room, ClosingNotice(f.server.dir.rooms[room].code, now), None, id, peer, conn);
    }
  }

  lemma OneReply(z: Server, e: Incoming, m: Message, id: RoomId, peer: PeerId, conn: Connection)
    ensures CodesReplied(z, e, [m], id, peer, conn)
         == if (e.CreateMessage? || e.JoinMessage?) && e.conn == conn && conn in z.session && z.session[conn] == (id, peer) && CodeIn(m) != ""
            then {CodeIn(m)} else {}
  {
    assert forall x :: x in [m] <==> x == m;
  }

  lemma NoneSent(id: RoomId, peer: PeerId, conn: Connection)
    ensures CodesTo({}, id, peer, conn) == {}
  {
  }

  /** The acknowledgment of a new room to its owner. */
  lemma AcknowledgmentInforms(s: Server, z: Server, e: Incoming, reply: Message, id: RoomId, peer: PeerId, conn: Connection)
    requires e.CreateMessage? && e.id in z.dir.rooms && z.dir.rooms == s.dir.rooms[e.id := z.dir.rooms[e.id]]
    requires MetaOf(z.dir.rooms[e.id]).owner == Some(e.peer) && CodeIn(reply) == z.dir.rooms[e.id].code
    requires z.registry.rooms == s.registry.rooms[e.id := PeersIn(s.registry, e.id)[e.peer := e.conn]]
    requires e.conn in z.session && z.session[e.conn] == (e.id, e.peer)
    ensures Informs(s, Effect(z, {}, [reply]), e, id, peer, conn)
  {
    hide CodesTo, CodesReplied, FirstOwner;
    NoneSent(id, peer, conn);
    OneReply(z, e, reply, id, peer, conn);
  }

  lemma CreateIs(c: Config, limits: Limits, s: Server, e: Incoming, now: Timestamp, at: Time)
    requires e.CreateMessage? && Handle(c, limits, s, e, now, at).server != s
    ensures var f := Handle(c, limits, s, e, now, at);
            var z := f.server;
            && f.sent == {} && |f.replies| == 1 && e.id in z.dir.rooms && z.dir.rooms == s.dir.rooms[e.id := z.dir.rooms[e.id]]
            && MetaOf(z.dir.rooms[e.id]).owner == Some(e.peer) && CodeIn(f.replies[0]) == z.dir.rooms[e.id].code
            && z.registry.rooms == s.registry.rooms[e.id := PeersIn(s.registry, e.id)[e.peer := e.conn]]
            && e.conn in z.session && z.session[e.conn] == (e.id, e.peer)
  {
    var autoRotate := if e.hopping && e.interval.Some? && e.interval.value > 0 then e.interval else None;
    CreatedBelongs(c, s.dir, e.id, e.draws, e.peer, e.key, e.password, e.hopping, autoRotate, now, at);
    CreatedUnder(c, s.dir, e.id, e.draws, e.peer, e.key, e.password, e.hopping, autoRotate, now, at);
    hide Create, ActiveByOwnerKey, MetaOf, IsBound;
  }

  lemma CreateRefused(c: Config, limits: Limits, s: Server, e: Incoming, now: Timestamp, at: Time)
    requires e.CreateMessage? && Handle(c, limits, s, e, now, at).server == s && e.id !in s.dir.rooms
    ensures var f := Handle(c, limits, s, e, now, at);
            |f.replies| == 1 && f.replies[0].ErrorNotice? && f == Refuse(s, f.replies[0].kind)
  {
    hide ActiveByOwnerKey, IsBound, NewRoom, FirstUnused;
  }

  lemma CreateInforms(c: Config, limits: Limits, s: Server, e: Incoming, now: Timestamp, at: Time, id: RoomId, peer: PeerId, conn: Connection)
    requires e.CreateMessage? && e.id !in s.dir.rooms
    ensures Informs(s, Handle(c, limits, s, e, now, at), e, id, peer, conn)
  {
    var f := Handle(c, limits, s, e, now, at);
    if f.server == s {
      CreateRefused(c, limits, s, e, now, at);
      hide Handle, Informs;
      RefusalsInform(s, f, e, id, peer, conn);
    } else {
      CreateIs(c, limits, s, e, now, at);
      hide Handle, Informs, MetaOf;
      assert f == Effect(f.server, {}, [f.replies[0]]);
      AcknowledgmentInforms(s, f.server, e, f.replies[0], id, peer, conn);
    }
  }

  lemma CreatedUnder(c: Config, d: Directory, id: RoomId, draws: seq<RoomCode>, peer: PeerId, key: RateKey,
                     password: Password, hopping: bool, autoRotate: Option<nat>, now: Timestamp, at: Time)
    requires Create(c, d, id, draws, Some(peer), Some(key), password, hopping, autoRotate, now, at).1.Some?
    ensures var (dir, code) := Create(c, d, id, draws, Some(peer), Some(key), password, hopping, autoRotate, now, at);
            id in dir.rooms && dir.rooms[id].code == code.value
  {
  }

  /** What a join leaves of the room `r` it is let into. */
  ghost predicate JoinedInto(s: Server, z: Server, e: Incoming, room: RoomId, rotated: Option<RoomCode>)
    requires e.JoinMessage? && room in s.dir.rooms
  {
    var r := s.dir.rooms[room];
    && z.dir.rooms.Keys == s.dir.rooms.Keys && MetaOf(z.dir.rooms[room]) == MetaOf(r)
    && (forall other :: other in s.dir.rooms && other != room ==> z.dir.rooms[other] == s.dir.rooms[other])
    && z.dir.rooms[room].code == (if rotated.Some? then rotated.value else r.code)
    && z.registry.rooms == s.registry.rooms[room := PeersIn(s.registry, room)[e.peer := e.conn]]
    && e.conn in z.session && z.session[e.conn] == (room, e.peer)
    && r.OwnerPeerId() != Some(e.peer)
  }

  function RotationNews(g: Registry, room: RoomId, owner: Option<PeerId>, rotated: Option<RoomCode>): set<Delivery>
  {
    if rotated.Some? && owner.Some? then Sent(g, room, owner.value, RoomCodeRotated(rotated.value)) else {}
  }

  /** Of a room that somebody joins, its owner is told the new code, if there is one, and nothing else of codes. */
  lemma JoinedCodes(z: Server, e: Incoming, room: RoomId, owner: Option<PeerId>, rotated: Option<RoomCode>,
                    id: RoomId, peer: PeerId, conn: Connection)
    requires e.JoinMessage? && (id == room ==> OwnersChannel(z.registry, id, peer, conn) && owner == Some(peer))
    ensures CodesTo(Broadcasted(z.registry, room, PeerJoined(e.peer), Some(e.peer)) + RotationNews(z.registry, room, owner, rotated), id, peer, conn)
         == if id == room && rotated.Some? && rotated.value != "" then {rotated.value} else {}
  {
    var heard, news := Broadcasted(z.registry, room, PeerJoined(e.peer), Some(e.peer)), RotationNews(z.registry, room, owner, rotated);
    hide Broadcasted, CodesTo, Sent, OwnersChannel;
    NoCodes(z.registry, room, PeerJoined(e.peer), Some(e.peer), id, peer, conn);
    CodesOfBoth(heard, news, id, peer, conn);
    NoneSent(id, peer, conn);
    if rotated.Some? && owner.Some? {
      CodesOfSent(z.registry, room, owner.value, RoomCodeRotated(rotated.value), id, peer, conn);
    }
  }

  lemma JoinedInforms(s: Server, z: Server, e: Incoming, room: RoomId, rotated: Option<RoomCode>, reply: Message,
                      id: RoomId, peer: PeerId, conn: Connection)
    requires e.JoinMessage? && room in s.dir.rooms && JoinedInto(s, z, e, room, rotated)
    requires Agreement(z.dir, z.registry)
    ensures Informs(s, Effect(z, Broadcasted(z.registry, room, PeerJoined(e.peer), Some(e.peer))
                                 + RotationNews(z.registry, room, s.dir.rooms[room].OwnerPeerId(), rotated), [reply]), e, id, peer, conn)
  {
    if Presides(z, id, peer, conn) {
      PresidesUnredacted(z, id, peer, conn);
      hide Broadcasted, CodesTo, CodesReplied, Agreement, OwnersChannel, Sent, FirstOwner, RotationNews;
      JoinedCodes(z, e, room, s.dir.rooms[room].OwnerPeerId(), rotated, id, peer, conn);
      OneReply(z, e, reply, id, peer, conn);
    }
  }

  lemma JoinIs(c: Config, s: Server, e: Incoming, now: Timestamp, at: Time) returns (room: RoomId, rotated: Option<RoomCode>)
    requires e.JoinMessage?
    requires OnJoin(c, s, e.conn, e.refused, e.code, e.peer, e.secret, e.key, e.draws, now, at).server != s
    ensures var f := OnJoin(c, s, e.conn, e.refused, e.code, e.peer, e.secret, e.key, e.draws, now, at);
            && room in s.dir.rooms && JoinedInto(s, f.server, e, room, rotated) && |f.replies| == 1
            && f.sent == Broadcasted(f.server.registry, room, PeerJoined(e.peer), Some(e.peer))
                         + RotationNews(f.server.registry, room, s.dir.rooms[room].OwnerPeerId(), rotated)
  {
    room := s.dir.index[e.code.value];
    var r := s.dir.rooms[room];
    var joining := Event(now, JoinOp(room, e.peer, e.secret, Some(e.key)));
    var joined := Join(c, s.dir, room, e.peer, false, e.secret, now, Some(e.key)).0;
    StaysAsItIs(c, s.dir, joining, room);
    NewcomerIsNotOwner(c, r, e.peer, e.secret, now, Some(e.key));
    var (dir, result) := Rotate(joined, room, e.draws, at);
    rotated := if r.hopping && result.Success? then Some(result.value) else None;
    hide FirstOwner, FirstUnused, Broadcasted, Sent;
  }

  lemma {:induction false} NewcomerIsNotOwner(c: Config, r: Room, peer: PeerId, secret: Option<string>, now: Timestamp, key: Option<RateKey>)
    requires AddPeer(c, r, peer, false, secret, now, key).Success?
    ensures r.OwnerPeerId() != Some(peer)
  {
    FirstOwnerIs(r.peers);
  }

  lemma JoinInforms(c: Config, s: Server, e: Incoming, now: Timestamp, at: Time, id: RoomId, peer: PeerId, conn: Connection)
    requires Agreement(s.dir, s.registry) && e.JoinMessage?
    ensures Informs(s, OnJoin(c, s, e.conn, e.refused, e.code, e.peer, e.secret, e.key, e.draws, now, at), e, id, peer, conn)
  {
    var f := OnJoin(c, s, e.conn, e.refused, e.code, e.peer, e.secret, e.key, e.draws, now, at);
    if f.server == s {
      JoinRefused(c, s, e, now, at);
      hide OnJoin, Informs;
      RefusalsInform(s, f, e, id, peer, conn);
    } else {
      var room, rotated := JoinIs(c, s, e, now, at);
      JoinSound(c, s, e.conn, e.refused, e.code, e.peer, e.secret, e.key, e.draws, now, at);
      hide OnJoin, Informs, JoinedInto, Discreet, Agreement, RotationNews;
      assert f == Effect(f.server, f.sent, [f.replies[0]]);
      JoinedInforms(s, f.server, e, room, rotated, f.replies[0], id, peer, conn);
    }
  }

  lemma JoinRefused(c: Config, s: Server, e: Incoming, now: Timestamp, at: Time)
    requires e.JoinMessage?
    requires OnJoin(c, s, e.conn, e.refused, e.code, e.peer, e.secret, e.key, e.draws, now, at).server == s
    ensures var f := OnJoin(c, s, e.conn, e.refused, e.code, e.peer, e.secret, e.key, e.draws, now, at);
            |f.replies| == 1 && f.replies[0].ErrorNotice? && f == Refuse(s, f.replies[0].kind)
  {
  }

  lemma HandleInforms(c: Config, limits: Limits, s: Server, e: Incoming, now: Timestamp, at: Time, id: RoomId, peer: PeerId, conn: Connection)
    requires Agreement(s.dir, s.registry) && NamesFreshRoom(s, e)
    ensures Informs(s, Handle(c, limits, s, e, now, at), e, id, peer, conn)
  {
    hide Informs, Agreement, OnJoin, OnRelay, OnRekey, OnKick, OnTransfer, OnLock, OnModerate, OnDetonate, OnDisconnect, OnTick,
         OnAutoRotate, OnHttpCreate, OnHttpExtend, OnHttpClose;
    match e
    case CreateMessage(_, _, _, _, _, _, _, _) => CreateInforms(c, limits, s, e, now, at, id, peer, conn);
    case JoinMessage(_, _, _, _, _, _, _) => JoinInforms(c, s, e, now, at, id, peer, conn);
    case RelayMessage(_, _) => RelayInforms(s, e, id, peer, conn);
    case RekeyMessage(_, _) => RekeyInforms(c, s, e, id, peer, conn);
    case KickMessage(_, _) => KickInforms(c, s, e, id, peer, conn);
    case TransferMessage(_, _) => TransferInforms(s, e, id, peer, conn);
    case LockMessage(_, _) => LockInforms(c, s, e, id, peer, conn);
    case ModerateMessage(_, _, _) => ModerateInforms(c, s, e, id, peer, conn);
    case DetonateMessage(_) => DetonateInforms(s, e, id, peer, conn);
    case Disconnect(_) => DisconnectInforms(s, e, id, peer, conn);
    case SweeperTick => TickInforms(c, s, e, now, id, peer, conn);
    case AutoRotation(_, _) => AutoRotateInforms(c, s, e, at, id, peer, conn);
    case HttpCreate(_, _, _, _, _) => HttpCreateInforms(c, limits, s, e, now, at, id, peer, conn);
    case HttpExtend(_, _) => HttpExtendInforms(c, s, e, id, peer, conn);
    case HttpClose(_, _) => HttpCloseInforms(c, s, e, now, id, peer, conn);
  }

  /** Of all that the run has sent the peer of the room through the socket, the last that carried a code carried this one. */
  ghost predicate LastTold(c: Config, limits: Limits, es: seq<Arrival>, id: RoomId, peer: PeerId, conn: Connection, code: RoomCode)
  {
    es != [] &&
    var n := |es| - 1;
    var told := CodesOf(Handle(c, limits, Serve(c, limits, es[..n]), es[n].incoming, es[n].now, es[n].at), es[n].incoming, id, peer, conn);
    if told == {} then LastTold(c, limits, es[..n], id, peer, conn, code) else told == {code}
  }

  lemma NobodyPresidesAtFirst(id: RoomId, peer: PeerId, conn: Connection)
    ensures !Presides(NOTHING, id, peer, conn)
  {
  }

  /**
   At every moment of every run, the owner of a hopping room whose channel is open has been told the
   room's present code: the last code sent through that channel is the code that leads to the room now.
   */
  lemma {:induction false} OwnerKnowsCode(c: Config, limits: Limits, es: seq<Arrival>, id: RoomId, peer: PeerId, conn: Connection)
    requires FreshRooms(c, limits, es) && AllDrawsReal(es) && Presides(Serve(c, limits, es), id, peer, conn)
    ensures LastTold(c, limits, es, id, peer, conn, Serve(c, limits, es).dir.rooms[id].code)
  {
    ServedRoomsCoded(c, limits, es);
    if es == [] {
      NobodyPresidesAtFirst(id, peer, conn);
    } else {
      var n := |es| - 1;
      assert forall k :: 0 <= k < n ==> es[..n][..k] == es[..k];
      RegistryFollowsManager(c, limits, es[..n]);
      var s := Serve(c, limits, es[..n]);
      assert NamesFreshRoom(s, es[n].incoming);
      hide Handle, Presides, CodesOf, Agreement;
      HandleInforms(c, limits, s, es[n].incoming, es[n].now, es[n].at, id, peer, conn);
      if Presides(s, id, peer, conn) {
        assert FreshRooms(c, limits, es[..n]) && AllDrawsReal(es[..n]);
        OwnerKnowsCode(c, limits, es[..n], id, peer, conn);
      }
    }
  }

  // Rotations.

  lemma OtherOpsKeepCode(c: Config, d: Directory, e: Event, id: RoomId)
    requires !e.op.CreateOp? && !e.op.RotateOp? && id in d.rooms && id in Apply(c, d, e).rooms
    ensures Apply(c, d, e).rooms[id].code == d.rooms[id].code
  {
    hide Apply;
    RoomAfter(c, d, e, id);
    BecomesKeepsCode(c, d.rooms[id], Apply(c, d, e).rooms[id], e);
  }

  /** Only a join and the periodic rotation move a room that stays to another code. */
  lemma OthersKeepCode(c: Config, limits: Limits, s: Server, e: Incoming, now: Timestamp, at: Time, id: RoomId)
    requires NamesFreshRoom(s, e) && !e.JoinMessage? && !e.AutoRotation?
    requires id in s.dir.rooms && id in Handle(c, limits, s, e, now, at).server.dir.rooms
    ensures Handle(c, limits, s, e, now, at).server.dir.rooms[id].code == s.dir.rooms[id].code
  {
    hide Handle;
    if Handle(c, limits, s, e, now, at).server.dir != s.dir {
      HandleIsOp(c, limits, s, e, now, at);
      if e.CreateMessage? || e.HttpCreate? {
        hide FirstUnused;
      } else {
        hide Apply;
        OtherOpsKeepCode(c, s.dir, Event(now, OpOf(s, e, at)), id);
      }
    }
  }

  /** The periodic rotation tells the owner. */
  lemma SweepAnnounces(s: Server, e: Incoming, at: Time, id: RoomId, peer: PeerId, conn: Connection)
    requires Agreement(s.dir, s.registry) && e.AutoRotation?
    requires var z := OnAutoRotate(s, e.id, e.draws, at).server;
             Presides(z, id, peer, conn) && id in s.dir.rooms && z.dir.rooms[id].code != s.dir.rooms[id].code
    ensures var f := OnAutoRotate(s, e.id, e.draws, at);
            Delivery(id, peer, conn, RoomCodeRotated(f.server.dir.rooms[id].code)) in f.sent
  {
    hide FirstOwner, FirstUnused;
    PresidesUnredacted(s, id, peer, conn);
  }

  lemma JoinAnnounces(c: Config, s: Server, e: Incoming, now: Timestamp, at: Time, id: RoomId, peer: PeerId, conn: Connection)
    requires Agreement(s.dir, s.registry) && e.JoinMessage?
    requires var z := OnJoin(c, s, e.conn, e.refused, e.code, e.peer, e.secret, e.key, e.draws, now, at).server;
             Presides(z, id, peer, conn) && id in s.dir.rooms && z.dir.rooms[id].code != s.dir.rooms[id].code
    ensures var f := OnJoin(c, s, e.conn, e.refused, e.code, e.peer, e.secret, e.key, e.draws, now, at);
            Delivery(id, peer, conn, RoomCodeRotated(f.server.dir.rooms[id].code)) in f.sent
  {
    var f := OnJoin(c, s, e.conn, e.refused, e.code, e.peer, e.secret, e.key, e.draws, now, at);
    var room, rotated := JoinIs(c, s, e, now, at);
    JoinSound(c, s, e.conn, e.refused, e.code, e.peer, e.secret, e.key, e.draws, now, at);
    PresidesUnredacted(f.server, id, peer, conn);
    hide OnJoin, Discreet, Agreement, Broadcasted, FirstOwner, ShouldRedact;
    OwnersLetter(f.server.registry, id, peer, conn, RoomCodeRotated(f.server.dir.rooms[id].code));
  }

  lemma HandleAnnounces(c: Config, limits: Limits, s: Server, e: Incoming, now: Timestamp, at: Time, id: RoomId, peer: PeerId, conn: Connection)
    requires Agreement(s.dir, s.registry) && NamesFreshRoom(s, e)
    requires var z := Handle(c, limits, s, e, now, at).server;
             Presides(z, id, peer, conn) && id in s.dir.rooms && z.dir.rooms[id].code != s.dir.rooms[id].code
    ensures var f := Handle(c, limits, s, e, now, at);
            Delivery(id, peer, conn, RoomCodeRotated(f.server.dir.rooms[id].code)) in f.sent
  {
    hide OnJoin, OnAutoRotate, Agreement, FirstOwner, OnCreate, OnRelay, OnRekey, OnKick, OnTransfer, OnLock, OnModerate, OnDetonate,
         OnDisconnect, OnTick, OnHttpCreate, OnHttpExtend, OnHttpClose;
    if e.JoinMessage? {
      JoinAnnounces(c, s, e, now, at, id, peer, conn);
    } else if e.AutoRotation? {
      SweepAnnounces(s, e, at, id, peer, conn);
    } else {
      hide Handle;
      OthersKeepCode(c, limits, s, e, now, at, id);
    }
  }

  /**
   Whatever moves a live hopping room to another code, in any run, puts the announcement of that code
   into the channel of the room's owner, if there is one.
   */
  lemma {:induction false} RotationIsAnnounced(c: Config, limits: Limits, es: seq<Arrival>, e: Incoming, now: Timestamp, at: Time,
                                               id: RoomId, peer: PeerId, conn: Connection)
    requires FreshRooms(c, limits, es) && NamesFreshRoom(Serve(c, limits, es), e)
    requires var s := Serve(c, limits, es);
             var z := Handle(c, limits, s, e, now, at).server;
             Presides(z, id, peer, conn) && id in s.dir.rooms && z.dir.rooms[id].code != s.dir.rooms[id].code
    ensures var f := Handle(c, limits, Serve(c, limits, es), e, now, at);
            Delivery(id, peer, conn, RoomCodeRotated(f.server.dir.rooms[id].code)) in f.sent
  {
    hide Serve, FreshRooms, Handle, Agreement, Presides, NamesFreshRoom;
    RegistryFollowsManager(c, limits, es);
    HandleAnnounces(c, limits, Serve(c, limits, es), e, now, at, id, peer, conn);
  }
}
