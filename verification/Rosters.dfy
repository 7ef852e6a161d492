/**
 What a client knows of its room. A client that starts from the list it was welcomed with and follows the
 notices of arrivals and departures knows, at every moment, exactly who else is in the room.
 */
module Rosters {
  import opened Basics
  import opened Rooms
  import opened RoomDirectory
  import opened RoomSteps
  import opened Sessions
  import opened Gateway
  import opened Routing
  import opened Service
  import Ownership = RoomOwnership

  function IdsOf(peers: seq<Peer>): set<PeerId>
  {
    set i | 0 <= i < |peers| :: peers[i].id
  }

  function Ids(r: Room): set<PeerId>
  {
    IdsOf(r.peers)
  }

  predicate IsNews(m: Message)
  {
    m.PeerJoined? || m.PeerLeft?
  }

  /** The arrivals and departures that deliveries bring to a peer of the room through a socket. */
  function News(sent: set<Delivery>, id: RoomId, peer: PeerId, conn: Connection): set<Message>
  {
    set d | d in sent && d.room == id && d.peer == peer && d.to == conn && IsNews(d.message) :: d.message
  }

  /** What a client that knew of `known` knows after the news. */
  function Heard(known: set<PeerId>, news: set<Message>): set<PeerId>
  {
    (set p | p in known && PeerLeft(p) !in news) + (set m | m in news && m.PeerJoined? :: m.peer)
  }

  /** The socket is the channel of the peer in the live room. */
  predicate Hears(s: Server, id: RoomId, peer: PeerId, conn: Connection)
  {
    id in s.dir.rooms && peer in PeersIn(s.registry, id) && PeersIn(s.registry, id)[peer] == conn
  }

  /** The step has let the peer into the room through the socket. */
  predicate Welcomed(f: Effect, e: Incoming, id: RoomId, peer: PeerId, conn: Connection)
  {
    && (e.CreateMessage? || e.JoinMessage?) && e.conn == conn && e.peer == peer
    && |f.replies| == 1 && (f.replies[0].RoomCreated? || f.replies[0].JoinOk?)
    && conn in f.server.session && f.server.session[conn] == (id, peer)
  }

  /** The peers that a welcome lists. */
  function Listed(f: Effect): set<PeerId>
  {
    set m, p | m in f.replies && m.JoinOk? && p in m.others :: p
  }

  /** What a client knows after a step. */
  function Learned(f: Effect, e: Incoming, known: set<PeerId>, id: RoomId, peer: PeerId, conn: Connection): set<PeerId>
  {
    Heard(if Welcomed(f, e, id, peer, conn) then Listed(f) else known, News(f.sent, id, peer, conn))
  }

  /** A client that knew who else was in the room, or has just been let in, knows it after the step. */
  ghost predicate KeepsUp(s: Server, f: Effect, e: Incoming, id: RoomId, peer: PeerId, conn: Connection)
  {
    Hears(f.server, id, peer, conn) ==>
      && (Welcomed(f, e, id, peer, conn) || Hears(s, id, peer, conn))
      && Learned(f, e, if id in s.dir.rooms then Ids(s.dir.rooms[id]) else {}, id, peer, conn) - {peer}
         == Ids(f.server.dir.rooms[id]) - {peer}
  }

  // News.

  lemma NewsOfBroadcast(g: Registry, room: RoomId, m: Message, except: Option<PeerId>, id: RoomId, peer: PeerId, conn: Connection)
    requires IsNews(m) && (id == room ==> peer in PeersIn(g, id) && PeersIn(g, id)[peer] == conn)
    ensures News(Broadcasted(g, room, m, except), id, peer, conn) == if id == room && except != Some(peer) then {m} else {}
  {
    var sent := Broadcasted(g, room, m, except);
    if id == room {
      assert DeliveryTo(g, id, peer, m) == Delivery(id, peer, conn, m);
      assert peer in Letters(g, id, m);
      assert except != Some(peer) ==> Delivery(id, peer, conn, m) in sent;
    }
    forall d | d in sent
      ensures d.room == room && d.message == m && except != Some(d.peer)
    {
      var p :| p in PeersIn(g, room).Keys - Skipped(except) && d == DeliveryTo(g, room, p, m);
    }
  }

  lemma NewsOfBoth(a: set<Delivery>, b: set<Delivery>, id: RoomId, peer: PeerId, conn: Connection)
    ensures News(a + b, id, peer, conn) == News(a, id, peer, conn) + News(b, id, peer, conn)
  {
  }

  ghost predicate NoNews(sent: set<Delivery>)
  {
    forall d :: d in sent ==> !IsNews(d.message)
  }

  lemma BroadcastIsNoNews(g: Registry, room: RoomId, m: Message, except: Option<PeerId>)
    requires !IsNews(m)
    ensures NoNews(Broadcasted(g, room, m, except))
  {
  }

  lemma BroadcastsAreNoNews(g: Registry, room: RoomId)
    ensures forall m, except {:trigger Broadcasted(g, room, m, except)} :: !IsNews(m) ==> NoNews(Broadcasted(g, room, m, except))
  {
    forall m, except | !IsNews(m)
      ensures NoNews(Broadcasted(g, room, m, except))
    {
      BroadcastIsNoNews(g, room, m, except);
    }
  }

  lemma SentIsNoNews(g: Registry, room: RoomId, peer: PeerId, m: Message)
    requires !IsNews(m)
    ensures NoNews(Sent(g, room, peer, m))
  {
  }

  lemma NoNewsAtAll(sent: set<Delivery>, id: RoomId, peer: PeerId, conn: Connection)
    requires NoNews(sent)
    ensures News(sent, id, peer, conn) == {}
  {
  }

  lemma HeardNothing(known: set<PeerId>)
    ensures Heard(known, {}) == known
  {
  }

  /** A step without news that leaves a peer's channel and the room's peers as they were. */
  lemma QuietKeepsUp(s: Server, f: Effect, e: Incoming, id: RoomId, peer: PeerId, conn: Connection)
    requires NoNews(f.sent) && !e.CreateMessage? && !e.JoinMessage?
    requires Hears(f.server, id, peer, conn) ==> Hears(s, id, peer, conn) && Ids(f.server.dir.rooms[id]) == Ids(s.dir.rooms[id])
    ensures KeepsUp(s, f, e, id, peer, conn)
  {
    NoNewsAtAll(f.sent, id, peer, conn);
    if Hears(f.server, id, peer, conn) {
      HeardNothing(Ids(s.dir.rooms[id]));
    }
  }

  // Who is in a room after an event.

  lemma IdsOfSame(r: Room, s: Room)
    requires |s.peers| == |r.peers| && forall i :: 0 <= i < |r.peers| ==> s.peers[i].id == r.peers[i].id
    ensures Ids(s) == Ids(r)
  {
    assert forall i :: 0 <= i < |r.peers| ==> r.peers[i].id in Ids(r);
    forall p | p in Ids(r)
      ensures p in Ids(s)
    {
      var i :| 0 <= i < |r.peers| && r.peers[i].id == p;
      assert s.peers[i].id == p;
    }
  }

  /** Only joins, departures and kicks move peers. */
  lemma IdsStay(c: Config, d: Directory, e: Event, id: RoomId)
    requires !e.op.CreateOp? && !e.op.JoinOp? && !e.op.LeaveOp? && !e.op.KickOp? && id in Apply(c, d, e).rooms
    ensures id in d.rooms && Ids(Apply(c, d, e).rooms[id]) == Ids(d.rooms[id])
  {
    var z := Apply(c, d, e);
    hide Apply, IdsOf;
    RoomAfter(c, d, e, id);
    if !e.op.TransferOp? {
      Ownership.OthersSamePeers(c, d.rooms[id], z.rooms[id], e);
    }
    IdsOfSame(d.rooms[id], z.rooms[id]);
  }

  ghost predicate AllDiffer(peers: seq<Peer>)
  {
    forall i, j :: 0 <= i < j < |peers| ==> peers[i].id != peers[j].id
  }

  ghost predicate Distinct(r: Room)
  {
    AllDiffer(r.peers)
  }

  lemma IdsJoined(r: Room, s: Room, p: Peer)
    requires s.peers == r.peers + [p]
    ensures Ids(s) == Ids(r) + {p.id}
  {
    forall q | q in Ids(r) + {p.id}
      ensures q in Ids(s)
    {
      if q in Ids(r) {
        var i :| 0 <= i < |r.peers| && r.peers[i].id == q;
        assert s.peers[i].id == q;
      } else {
        assert s.peers[|r.peers|].id == q;
      }
    }
  }

  lemma IdsRemoved(peers: seq<Peer>, k: nat)
    requires k < |peers| && AllDiffer(peers)
    ensures IdsOf(Ownership.Removed(peers, k)) == IdsOf(peers) - {peers[k].id} && AllDiffer(Ownership.Removed(peers, k))
  {
    var rest := Ownership.Removed(peers, k);
    forall i | 0 <= i < |rest|
      ensures |rest| == |peers| - 1 && rest[i] == peers[if i < k then i else i + 1]
    {
      Ownership.RemovedAt(peers, k, i);
    }
    hide Ownership.Removed;
    forall i | 0 <= i < |peers| && i != k
      ensures peers[i].id in IdsOf(rest)
    {
      assert rest[if i < k then i else i - 1].id == peers[i].id;
    }
  }

  lemma IdsWithout(r: Room, peer: PeerId)
    requires Distinct(r) && r.HasPeer(peer)
    ensures Ids(WithoutPeer(r, peer)) == Ids(r) - {peer} && Distinct(WithoutPeer(r, peer))
  {
    Ownership.HasPeerPosition(r, peer);
    hide IdsOf, AllDiffer;
    IdsRemoved(r.peers, Position(r.peers, peer));
    assert WithoutPeer(r, peer).peers == Ownership.Removed(r.peers, Position(r.peers, peer));
  }

  // Ids stay distinct.

  lemma NewcomerIsDistinct(c: Config, r: Room, s: Room, peer: PeerId, secret: Option<string>, now: Timestamp, key: Option<RateKey>)
    requires Distinct(r) && AddPeer(c, r, peer, false, secret, now, key) == Success(s)
    ensures Distinct(s)
  {
  }

  lemma BecomesDistinct(c: Config, r: Room, s: Room, e: Event)
    requires Becomes(c, r, s, e) && Distinct(r)
    ensures Distinct(s)
  {
    hide Moderated, Swept, AddPeer, KeyOf;
    if s != r {
      match e.op
      case JoinOp(_, peer, secret, key) => NewcomerIsDistinct(c, r, s, peer, secret, e.now, key);
      case LeaveOp(_, peer) => IdsWithout(r, peer);
      case KickOp(_, _, target) => IdsWithout(r, target);
      case TransferOp(_, _, _) =>
      case _ => Ownership.OthersSamePeers(c, r, s, e);
    }
  }

  ghost predicate AllDistinct(d: Directory)
  {
    forall id :: id in d.rooms ==> Distinct(d.rooms[id])
  }

  lemma ApplyDistinct(c: Config, d: Directory, e: Event)
    requires AllDistinct(d) && (e.op.CreateOp? ==> e.op.id !in d.rooms)
    ensures AllDistinct(Apply(c, d, e))
  {
    forall id | id in Apply(c, d, e).rooms
      ensures Distinct(Apply(c, d, e).rooms[id])
    {
      hide Apply;
      RoomAfter(c, d, e, id);
      if id in d.rooms {
        BecomesDistinct(c, d.rooms[id], Apply(c, d, e).rooms[id], e);
      }
    }
  }

  lemma {:induction false} OpsDistinct(c: Config, d: Directory, ops: seq<Op>, now: Timestamp)
    requires AllDistinct(d) && forall op :: op in ops && op.CreateOp? ==> ops == [op] && op.id !in d.rooms
    ensures AllDistinct(ApplyAll(c, d, ops, now))
  {
    if ops != [] {
      hide Apply, AllDistinct;
      var front, last := ops[..|ops| - 1], ops[|ops| - 1];
      assert last in ops;
      if last.CreateOp? {
        assert front == [];
      }
      OpsDistinct(c, d, front, now);
      ApplyDistinct(c, ApplyAll(c, d, front, now), Event(now, last));
    }
  }

  lemma {:induction false} ServedDistinct(c: Config, limits: Limits, es: seq<Arrival>)
    requires FreshRooms(c, limits, es)
    ensures AllDistinct(Serve(c, limits, es).dir)
  {
    if es != [] {
      var n := |es| - 1;
      assert forall k :: 0 <= k < n ==> es[..n][..k] == es[..k];
      ServedDistinct(c, limits, es[..n]);
      var s := Serve(c, limits, es[..n]);
      hide Handle, AllDistinct;
      var ops := HandleIsOps(c, limits, s, es[n].incoming, es[n].now, es[n].at);
      assert NamesFreshRoom(s, es[n].incoming);
      OpsDistinct(c, s.dir, ops, es[n].now);
    }
  }

  // The handlers that move no peers.

  predicate IsQuiet(e: Incoming)
  {
    !e.CreateMessage? && !e.JoinMessage? && !e.KickMessage? && !e.Disconnect?
  }

  lemma TickMailIsNoNews(c: Config, s: Server, later: Registry, now: Timestamp, id: RoomId)
    requires id in s.dir.rooms
    ensures NoNews(TickMail(c, s, later, now, id))
  {
    hide Swept, MuteOver, Broadcasted;
    BroadcastsAreNoNews(s.registry, id);
    BroadcastsAreNoNews(later, id);
  }

  lemma TickIsNoNews(c: Config, s: Server, now: Timestamp)
    ensures NoNews(OnTick(c, s, now).sent)
  {
    hide TickMail, Dies;
    var f := OnTick(c, s, now);
    forall d | d in f.sent
      ensures !IsNews(d.message)
    {
      var id :| id in s.dir.rooms && d in TickMail(c, s, f.server.registry, now, id);
      TickMailIsNoNews(c, s, f.server.registry, now, id);
    }
  }

  lemma AnnouncementsAreNoNews(g: Registry, id: RoomId, heir: PeerId)
    ensures forall code, hopping {:trigger Announced(g, id, code, heir, hopping)} :: NoNews(Announced(g, id, code, heir, hopping))
  {
    forall code, hopping: bool
      ensures NoNews(Announced(g, id, code, heir, hopping))
    {
      BroadcastIsNoNews(g, id, RoomOwnerChanged(code, heir), None);
      SentIsNoNews(g, id, heir, RoomCodeRotated(code));
      hide Broadcasted, Sent;
    }
  }

  lemma OwnersHandlersAreNoNews(c: Config, limits: Limits, s: Server, e: Incoming, now: Timestamp, at: Time)
    requires e.RekeyMessage? || e.LockMessage? || e.ModerateMessage? || e.DetonateMessage?
    ensures NoNews(Handle(c, limits, s, e, now, at).sent)
  {
    hide Broadcasted, Rekey, Moderated, Drop, FirstOwner;
    if e.conn in s.session {
      BroadcastsAreNoNews(s.registry, s.session[e.conn].0);
    }
  }

  lemma TransferIsNoNews(s: Server, conn: Connection, heir: PeerId)
    ensures NoNews(OnTransfer(s, conn, heir).sent)
  {
    hide WithOwner, FirstOwner, Announced;
    if conn in s.session {
      var id := s.session[conn].0;
      AnnouncementsAreNoNews(WithOwnerMeta(s.registry, id, Some(heir)), id, heir);
    }
  }

  lemma OtherHandlersAreNoNews(c: Config, limits: Limits, s: Server, e: Incoming, now: Timestamp, at: Time)
    requires e.RelayMessage? || e.AutoRotation? || e.HttpCreate? || e.HttpExtend?
    ensures NoNews(Handle(c, limits, s, e, now, at).sent)
  {
    hide Rotate, Create, ActiveByOwnerKey, ExtendRoom, FirstOwner, RotationDue;
  }

  lemma HttpCloseIsNoNews(c: Config, s: Server, code: RoomCode, peer: PeerId, now: Timestamp)
    ensures NoNews(OnHttpClose(c, s, code, peer, now).sent)
  {
    hide CloseRoom, Broadcasted;
    if code in s.dir.index {
      var id := s.dir.index[code];
      BroadcastsAreNoNews(s.registry, id);
    }
  }

  lemma QuietIsNoNews(c: Config, limits: Limits, s: Server, e: Incoming, now: Timestamp, at: Time)
    requires IsQuiet(e)
    ensures NoNews(Handle(c, limits, s, e, now, at).sent)
  {
    hide NoNews, OnTick, OnHttpClose, OnRekey, OnLock, OnModerate, OnDetonate, OnRelay, OnTransfer, OnAutoRotate, OnHttpCreate, OnHttpExtend;
    match e
    case SweeperTick => TickIsNoNews(c, s, now);
    case TransferMessage(conn, heir) => TransferIsNoNews(s, conn, heir);
    case HttpClose(code, peer) => HttpCloseIsNoNews(c, s, code, peer, now);
    case RekeyMessage(_, _) => OwnersHandlersAreNoNews(c, limits, s, e, now, at);
    case LockMessage(_, _) => OwnersHandlersAreNoNews(c, limits, s, e, now, at);
    case ModerateMessage(_, _, _) => OwnersHandlersAreNoNews(c, limits, s, e, now, at);
    case DetonateMessage(_) => OwnersHandlersAreNoNews(c, limits, s, e, now, at);
    case _ => OtherHandlersAreNoNews(c, limits, s, e, now, at);
  }

  /** None of them opens a channel. */
  lemma QuietOpensNothing(c: Config, limits: Limits, s: Server, e: Incoming, now: Timestamp, at: Time, id: RoomId)
    requires IsQuiet(e) && id in Handle(c, limits, s, e, now, at).server.registry.rooms
    ensures id in s.registry.rooms && Handle(c, limits, s, e, now, at).server.registry.rooms[id] == s.registry.rooms[id]
  {
    hide RekeyRoom, LockRoom, Moderate, Detonate, Transfer, Rotate, Create, ExtendRoom, CloseRoom, Tick, TickMail, Broadcasted, Sent, Announced,
         Permits, ActiveByOwnerKey, Dies;
  }

  lemma QuietIds(c: Config, limits: Limits, s: Server, e: Incoming, now: Timestamp, at: Time, id: RoomId)
    requires IsQuiet(e) && NamesFreshRoom(s, e) && id in s.dir.rooms && id in Handle(c, limits, s, e, now, at).server.dir.rooms
    ensures Ids(Handle(c, limits, s, e, now, at).server.dir.rooms[id]) == Ids(s.dir.rooms[id])
  {
    hide Handle, Ids;
    if Handle(c, limits, s, e, now, at).server.dir != s.dir {
      HandleIsOp(c, limits, s, e, now, at);
      if e.HttpCreate? {
        hide FirstUnused, NewRoom;
      } else {
        hide Apply;
        IdsStay(c, s.dir, Event(now, OpOf(s, e, at)), id);
      }
    }
  }

  lemma QuietHandlersKeepUp(c: Config, limits: Limits, s: Server, e: Incoming, now: Timestamp, at: Time,
                            id: RoomId, peer: PeerId, conn: Connection)
    requires Agreement(s.dir, s.registry) && NamesFreshRoom(s, e) && IsQuiet(e)
    ensures KeepsUp(s, Handle(c, limits, s, e, now, at), e, id, peer, conn)
  {
    var f := Handle(c, limits, s, e, now, at);
    hide Handle, KeepsUp, NoNews, Ids;
    QuietIsNoNews(c, limits, s, e, now, at);
    if Hears(f.server, id, peer, conn) {
      QuietOpensNothing(c, limits, s, e, now, at, id);
      assert id in s.registry.meta;
      QuietIds(c, limits, s, e, now, at, id);
    }
    QuietKeepsUp(s, f, e, id, peer, conn);
  }

  // Kicks and departures.

  lemma HeardOne(known: set<PeerId>, p: PeerId)
    ensures Heard(known, {PeerLeft(p)}) == known - {p} && Heard(known, {PeerJoined(p)}) == known + {p}
  {
    var joined := set m | m in {PeerJoined(p)} && m.PeerJoined? :: m.peer;
    assert PeerJoined(p) in {PeerJoined(p)};
    assert joined == {p};
  }

  lemma LossNews(g: Registry, sent: set<Delivery>, more: set<Delivery>, room: RoomId, gone: PeerId, except: Option<PeerId>,
                 id: RoomId, peer: PeerId, conn: Connection)
    requires sent == Broadcasted(g, room, PeerLeft(gone), except) && NoNews(more)
    requires peer in PeersIn(g, id) && PeersIn(g, id)[peer] == conn
    ensures News(sent + more, id, peer, conn) == if id == room && except != Some(peer) then {PeerLeft(gone)} else {}
  {
    hide Broadcasted, NoNews, News;
    NewsOfBroadcast(g, room, PeerLeft(gone), except, id, peer, conn);
    NoNewsAtAll(more, id, peer, conn);
    NewsOfBoth(sent, more, id, peer, conn);
  }

  /** One peer of a room is gone, and the others are told. */
  lemma LossKeepsUp(s: Server, f: Effect, e: Incoming, sent: set<Delivery>, more: set<Delivery>, room: RoomId, gone: PeerId,
                    except: Option<PeerId>, id: RoomId, peer: PeerId, conn: Connection)
    requires !e.CreateMessage? && !e.JoinMessage? && f.sent == sent + more && NoNews(more)
    requires sent == Broadcasted(s.registry, room, PeerLeft(gone), except) && (except == None || except == Some(gone))
    requires Hears(f.server, id, peer, conn) ==> Hears(s, id, peer, conn)
    requires Hears(f.server, id, peer, conn) ==>
      Ids(f.server.dir.rooms[id]) == Ids(s.dir.rooms[id]) - if id == room then {gone} else {}
    ensures KeepsUp(s, f, e, id, peer, conn)
  {
    hide Broadcasted, Heard, NoNews, News, Ids;
    if Hears(f.server, id, peer, conn) {
      LossNews(s.registry, sent, more, room, gone, except, id, peer, conn);
      HeardNothing(Ids(s.dir.rooms[id]));
      HeardOne(Ids(s.dir.rooms[id]), gone);
    }
  }

  lemma RefusalKeepsUp(s: Server, f: Effect, e: Incoming, id: RoomId, peer: PeerId, conn: Connection)
    requires |f.replies| == 1 && f.replies[0].ErrorNotice? && f == Refuse(s, f.replies[0].kind)
    ensures KeepsUp(s, f, e, id, peer, conn)
  {
    NoNewsAtAll(f.sent, id, peer, conn);
    if Hears(f.server, id, peer, conn) {
      HeardNothing(Ids(s.dir.rooms[id]));
    }
  }

  lemma KickKeepsUp(s: Server, e: Incoming, id: RoomId, peer: PeerId, conn: Connection)
    requires AllDistinct(s.dir) && e.KickMessage?
    ensures KeepsUp(s, OnKick(s, e.conn, e.target), e, id, peer, conn)
  {
    var f := OnKick(s, e.conn, e.target);
    hide KeepsUp, WithoutPeer, FirstOwner, Sent, Broadcasted, IdsOf, AllDiffer;
    if e.conn in s.session && f.replies == [] {
      var room := s.session[e.conn].0;
      IdsWithout(s.dir.rooms[room], e.target);
      SentIsNoNews(s.registry, room, e.target, ErrorNotice("KICKED_FROM_ROOM"));
      var notice := Sent(s.registry, room, e.target, ErrorNotice("KICKED_FROM_ROOM"));
      var news := Broadcasted(s.registry, room, PeerLeft(e.target), Some(e.target));
      assert f.sent == news + notice;
      LossKeepsUp(s, f, e, news, notice, room, e.target, Some(e.target), id, peer, conn);
    } else {
      RefusalKeepsUp(s, f, e, id, peer, conn);
    }
  }

  /** Who is left when a peer leaves. */
  lemma LeaveIds(d: Directory, room: RoomId, gone: PeerId, id: RoomId)
    requires AllDistinct(d) && id in Leave(d, room, gone).0.rooms
    ensures id in d.rooms
    ensures Ids(Leave(d, room, gone).0.rooms[id])
         == Ids(d.rooms[id]) - if id == room && Leave(d, room, gone).1.Some? then {gone} else {}
  {
    if id == room && Leave(d, room, gone).1.Some? {
      var r := d.rooms[id];
      hide IdsOf, AllDiffer;
      IdsWithout(r, gone);
      hide WithoutPeer;
      IdsOfSame(WithoutPeer(r, gone), AfterLeave(r, gone));
    }
  }

  lemma DepartedSends(s: Server, room: RoomId, gone: PeerId) returns (more: set<Delivery>)
    requires Leave(s.dir, room, gone).1.Some? && !Leave(s.dir, room, gone).1.value.destroyed
    ensures Departed(s, room, gone).sent == Broadcasted(s.registry, room, PeerLeft(gone), None) + more && NoNews(more)
  {
    var (dir, outcome) := Leave(s.dir, room, gone);
    more := {};
    if outcome.value.newOwner.Some? {
      var heir := outcome.value.newOwner.value;
      var g := WithOwnerMeta(s.registry, room, Some(heir));
      AnnouncementsAreNoNews(g, room, heir);
      more := Announced(g, room, outcome.value.code, heir, dir.rooms[room].hopping);
    }
  }

  lemma DepartedOpensNothing(s: Server, room: RoomId, gone: PeerId, id: RoomId)
    requires id in Departed(s, room, gone).server.registry.rooms
    ensures id in s.registry.rooms && Departed(s, room, gone).server.registry.rooms[id] == s.registry.rooms[id]
  {
    hide Broadcasted, Announced, AfterLeave;
  }

  lemma DepartedKeepsUp(s: Server, e: Incoming, room: RoomId, gone: PeerId, id: RoomId, peer: PeerId, conn: Connection)
    requires AllDistinct(s.dir) && e.Disconnect?
    ensures KeepsUp(s, Departed(s, room, gone), e, id, peer, conn)
  {
    var f := Departed(s, room, gone);
    var (dir, outcome) := Leave(s.dir, room, gone);
    assert f.server.dir == dir;
    if Hears(f.server, id, peer, conn) {
      DepartedOpensNothing(s, room, gone, id);
      LeaveIds(s.dir, room, gone, id);
    }
    hide KeepsUp, Leave, Ids, NoNews, Announced;
    if outcome.Some? && !outcome.value.destroyed {
      var more := DepartedSends(s, room, gone);
      LossKeepsUp(s, f, e, Broadcasted(s.registry, room, PeerLeft(gone), None), more, room, gone, None, id, peer, conn);
    } else if outcome.Some? {
      BroadcastIsNoNews(s.registry, room, RoomClosed(outcome.value.code, "room_empty"), None);
      QuietKeepsUp(s, f, e, id, peer, conn);
    } else {
      NothingIsNoNews();
      QuietKeepsUp(s, f, e, id, peer, conn);
    }
  }

  lemma NothingIsNoNews()
    ensures NoNews({})
  {
  }

  lemma FewerChannels(g: Registry, gone: Connection, id: RoomId, peer: PeerId, conn: Connection)
    requires peer in PeersIn(Disconnected(g, gone), id) && PeersIn(Disconnected(g, gone), id)[peer] == conn
    ensures peer in PeersIn(g, id) && PeersIn(g, id)[peer] == conn
  {
  }

  lemma DisconnectKeepsUp(s: Server, e: Incoming, id: RoomId, peer: PeerId, conn: Connection)
    requires AllDistinct(s.dir) && e.Disconnect?
    ensures KeepsUp(s, OnDisconnect(s, e.conn), e, id, peer, conn)
  {
    var f := OnDisconnect(s, e.conn);
    var closed := s.(registry := Disconnected(s.registry, e.conn), session := s.session - {e.conn});
    hide Departed, Disconnected, AllDistinct, Learned;
    if Hears(closed, id, peer, conn) {
      FewerChannels(s.registry, e.conn, id, peer, conn);
    }
    if e.conn in s.session {
      DepartedKeepsUp(closed, e, s.session[e.conn].0, s.session[e.conn].1, id, peer, conn);
    } else if e.conn in s.registry.connections {
      DepartedKeepsUp(closed, e, s.registry.connections[e.conn].0, s.registry.connections[e.conn].1, id, peer, conn);
    } else {
      NothingIsNoNews();
      QuietKeepsUp(s, f, e, id, peer, conn);
    }
  }

  // Creations and joins.

  lemma IdsOfOne(p: Peer)
    ensures IdsOf([p]) == {p.id}
  {
    assert [p][0].id in IdsOf([p]);
  }

  lemma CreationLets(c: Config, limits: Limits, s: Server, e: Incoming, now: Timestamp, at: Time)
    requires e.CreateMessage? && !Handle(c, limits, s, e, now, at).replies[0].ErrorNotice?
    ensures var f := Handle(c, limits, s, e, now, at);
            var z := f.server;
            && f.sent == {} && |f.replies| == 1 && f.replies[0].RoomCreated?
            && e.id in z.dir.rooms && z.dir.rooms == s.dir.rooms[e.id := z.dir.rooms[e.id]] && Ids(z.dir.rooms[e.id]) == {e.peer}
            && z.registry.rooms == s.registry.rooms[e.id := PeersIn(s.registry, e.id)[e.peer := e.conn]]
            && e.conn in z.session && z.session[e.conn] == (e.id, e.peer)
  {
    IdsOfOne(Peer(e.peer, true, now, Some(e.key), false, None));
    hide ActiveByOwnerKey, IsBound, IdsOf, FirstUnused;
  }

  lemma CreationReplies(c: Config, limits: Limits, s: Server, e: Incoming, now: Timestamp, at: Time)
    requires e.CreateMessage?
    ensures var f := Handle(c, limits, s, e, now, at);
            |f.replies| == 1 && (f.replies[0].ErrorNotice? ==> f == Refuse(s, f.replies[0].kind))
  {
    hide ActiveByOwnerKey, IsBound, Create;
  }

  lemma FirstInKnowsAll(s: Server, f: Effect, e: Incoming, id: RoomId, peer: PeerId, conn: Connection)
    requires Agreement(s.dir, s.registry) && e.CreateMessage? && e.id !in s.dir.rooms
    requires f.sent == {} && |f.replies| == 1 && f.replies[0].RoomCreated?
    requires var z := f.server;
            && e.id in z.dir.rooms && z.dir.rooms == s.dir.rooms[e.id := z.dir.rooms[e.id]] && Ids(z.dir.rooms[e.id]) == {e.peer}
            && z.registry.rooms == s.registry.rooms[e.id := PeersIn(s.registry, e.id)[e.peer := e.conn]]
            && e.conn in z.session && z.session[e.conn] == (e.id, e.peer)
    ensures KeepsUp(s, f, e, id, peer, conn)
  {
    assert PeersIn(s.registry, e.id) == map[];
    assert News({}, id, peer, conn) == {};
    assert Listed(f) == {};
    HeardNothing({});
    hide Ids, Heard;
    if Hears(f.server, id, peer, conn) && id != e.id {
      HeardNothing(Ids(s.dir.rooms[id]));
    }
  }

  lemma CreateKeepsUp(c: Config, limits: Limits, s: Server, e: Incoming, now: Timestamp, at: Time, id: RoomId, peer: PeerId, conn: Connection)
    requires Agreement(s.dir, s.registry) && e.CreateMessage? && e.id !in s.dir.rooms
    ensures KeepsUp(s, Handle(c, limits, s, e, now, at), e, id, peer, conn)
  {
    var f := Handle(c, limits, s, e, now, at);
    hide Handle, KeepsUp, Agreement, Ids;
    CreationReplies(c, limits, s, e, now, at);
    if f.replies[0].ErrorNotice? {
      RefusalKeepsUp(s, f, e, id, peer, conn);
    } else {
      CreationLets(c, limits, s, e, now, at);
      FirstInKnowsAll(s, f, e, id, peer, conn);
    }
  }

  /** What a successful join does: the newcomer stands in the room, is told who was there, and is announced to them. */
  ghost predicate Entered(s: Server, f: Effect, e: Incoming, room: RoomId)
    requires e.JoinMessage? && room in s.dir.rooms
  {
    var z := f.server;
    && z.dir.rooms.Keys == s.dir.rooms.Keys && Ids(z.dir.rooms[room]) == Ids(s.dir.rooms[room]) + {e.peer}
    && (forall other :: other in s.dir.rooms && other != room ==> z.dir.rooms[other] == s.dir.rooms[other])
    && z.registry.rooms == s.registry.rooms[room := PeersIn(s.registry, room)[e.peer := e.conn]]
    && e.conn in z.session && z.session[e.conn] == (room, e.peer)
    && |f.replies| == 1 && f.replies[0].JoinOk? && Listed(f) == Ids(s.dir.rooms[room])
    && exists more :: NoNews(more) && f.sent == Broadcasted(z.registry, room, PeerJoined(e.peer), Some(e.peer)) + more
  }

  lemma ListedIs(f: Effect, code: RoomCode, peer: PeerId, owner: Option<PeerId>, expiresAt: Timestamp, peers: seq<Peer>)
    requires f.replies == [JoinOk(code, peer, owner, expiresAt, PeerIds(peers))]
    ensures Listed(f) == IdsOf(peers)
  {
    forall p | p in IdsOf(peers)
      ensures p in Listed(f)
    {
      var i :| 0 <= i < |peers| && peers[i].id == p;
      assert PeerIds(peers)[i] == p;
      assert f.replies[0] in f.replies && p in f.replies[0].others;
    }
  }

  lemma RotationKeepsIds(d: Directory, id: RoomId, draws: seq<RoomCode>, at: Time, room: RoomId)
    ensures var z := Rotate(d, id, draws, at).0;
            z.rooms.Keys == d.rooms.Keys && (room in d.rooms ==> z.rooms[room].peers == d.rooms[room].peers)
            && (room in d.rooms && room != id ==> z.rooms[room] == d.rooms[room])
  {
  }

  /** What `Joined` makes of a directory that the peer has just joined. */
  lemma JoinedEnters(s: Server, e: Incoming, joined: Directory, room: RoomId, at: Time)
    requires e.JoinMessage? && e.code.Some? && room in s.dir.rooms && room in joined.rooms
    requires joined.rooms == s.dir.rooms[room := joined.rooms[room]] && Ids(joined.rooms[room]) == Ids(s.dir.rooms[room]) + {e.peer}
    ensures Entered(s, Joined(s, e.conn, joined, room, s.dir.rooms[room], e.code.value, e.peer, e.draws, at), e, room)
  {
    var r := s.dir.rooms[room];
    var f := Joined(s, e.conn, joined, room, r, e.code.value, e.peer, e.draws, at);
    hide FirstOwner, Rotate, IdsOf, Broadcasted, Listed;
    ListedIs(f, f.replies[0].code, e.peer, r.OwnerPeerId(), r.expiresAt, r.peers);
    var result := Rotate(joined, room, e.draws, at).1;
    var more := if r.hopping && result.Success? && r.OwnerPeerId().Some?
                then Sent(f.server.registry, room, r.OwnerPeerId().value, RoomCodeRotated(result.value)) else {};
    assert NoNews(more) && f.sent == Broadcasted(f.server.registry, room, PeerJoined(e.peer), Some(e.peer)) + more;
    hide Sent, NoNews;
    forall other | other in s.dir.rooms
      ensures other in f.server.dir.rooms && (other != room ==> f.server.dir.rooms[other] == s.dir.rooms[other])
    {
      RotationKeepsIds(joined, room, e.draws, at, other);
    }
    RotationKeepsIds(joined, room, e.draws, at, room);
  }

  lemma JoinLets(c: Config, s: Server, e: Incoming, now: Timestamp, at: Time) returns (room: RoomId)
    requires e.JoinMessage?
    requires !OnJoin(c, s, e.conn, e.refused, e.code, e.peer, e.secret, e.key, e.draws, now, at).replies[0].ErrorNotice?
    ensures room in s.dir.rooms
    ensures Entered(s, OnJoin(c, s, e.conn, e.refused, e.code, e.peer, e.secret, e.key, e.draws, now, at), e, room)
  {
    hide Entered, Joined, IdsOf;
    room := s.dir.index[e.code.value];
    var joined := Join(c, s.dir, room, e.peer, false, e.secret, now, Some(e.key)).0;
    IdsJoined(s.dir.rooms[room], joined.rooms[room], Peer(e.peer, false, now, Some(e.key), false, None));
    JoinedEnters(s, e, joined, room, at);
  }

  lemma JoinReplies(c: Config, s: Server, e: Incoming, now: Timestamp, at: Time)
    requires e.JoinMessage?
    ensures var f := OnJoin(c, s, e.conn, e.refused, e.code, e.peer, e.secret, e.key, e.draws, now, at);
            |f.replies| == 1 && (f.replies[0].ErrorNotice? ==> f == Refuse(s, f.replies[0].kind))
  {
  }

  lemma EnteredNews(f: Effect, e: Incoming, room: RoomId, id: RoomId, peer: PeerId, conn: Connection)
    requires e.JoinMessage? && Hears(f.server, id, peer, conn)
    requires exists more :: NoNews(more) && f.sent == Broadcasted(f.server.registry, room, PeerJoined(e.peer), Some(e.peer)) + more
    ensures News(f.sent, id, peer, conn) == if id == room && peer != e.peer then {PeerJoined(e.peer)} else {}
  {
    var more :| NoNews(more) && f.sent == Broadcasted(f.server.registry, room, PeerJoined(e.peer), Some(e.peer)) + more;
    var news := Broadcasted(f.server.registry, room, PeerJoined(e.peer), Some(e.peer));
    hide Broadcasted, NoNews, News;
    NewsOfBroadcast(f.server.registry, room, PeerJoined(e.peer), Some(e.peer), id, peer, conn);
    NoNewsAtAll(more, id, peer, conn);
    NewsOfBoth(news, more, id, peer, conn);
  }

  lemma EnteredKeepsUp(s: Server, f: Effect, e: Incoming, room: RoomId, id: RoomId, peer: PeerId, conn: Connection)
    requires e.JoinMessage? && room in s.dir.rooms && Entered(s, f, e, room)
    ensures KeepsUp(s, f, e, id, peer, conn)
  {
    if Hears(f.server, id, peer, conn) {
      hide Ids, Heard, Broadcasted, NoNews, News, Listed;
      EnteredNews(f, e, room, id, peer, conn);
      HeardNothing(Ids(s.dir.rooms[id]));
      HeardOne(Ids(s.dir.rooms[id]), e.peer);
    }
  }

  lemma JoinKeepsUp(c: Config, s: Server, e: Incoming, now: Timestamp, at: Time, id: RoomId, peer: PeerId, conn: Connection)
    requires e.JoinMessage?
    ensures KeepsUp(s, OnJoin(c, s, e.conn, e.refused, e.code, e.peer, e.secret, e.key, e.draws, now, at), e, id, peer, conn)
  {
    var f := OnJoin(c, s, e.conn, e.refused, e.code, e.peer, e.secret, e.key, e.draws, now, at);
    hide OnJoin, KeepsUp, Entered;
    JoinReplies(c, s, e, now, at);
    if f.replies[0].ErrorNotice? {
      RefusalKeepsUp(s, f, e, id, peer, conn);
    } else {
      var room := JoinLets(c, s, e, now, at);
      EnteredKeepsUp(s, f, e, room, id, peer, conn);
    }
  }

  lemma HandleKeepsUp(c: Config, limits: Limits, s: Server, e: Incoming, now: Timestamp, at: Time,
                      id: RoomId, peer: PeerId, conn: Connection)
    requires Agreement(s.dir, s.registry) && AllDistinct(s.dir) && NamesFreshRoom(s, e)
    ensures KeepsUp(s, Handle(c, limits, s, e, now, at), e, id, peer, conn)
  {
    hide KeepsUp, Agreement, AllDistinct, OnJoin, OnKick, OnDisconnect;
    if e.CreateMessage? {
      hide Handle;
      CreateKeepsUp(c, limits, s, e, now, at, id, peer, conn);
    } else if e.JoinMessage? {
      JoinKeepsUp(c, s, e, now, at, id, peer, conn);
    } else if e.KickMessage? {
      KickKeepsUp(s, e, id, peer, conn);
    } else if e.Disconnect? {
      DisconnectKeepsUp(s, e, id, peer, conn);
    } else {
      hide Handle;
      QuietHandlersKeepUp(c, limits, s, e, now, at, id, peer, conn);
    }
  }

  // The client.

  /** What the client of the peer behind the socket has learned of the room in the course of a run. */
  function Known(c: Config, limits: Limits, es: seq<Arrival>, id: RoomId, peer: PeerId, conn: Connection): set<PeerId>
  {
    if es == [] then {} else
      var n := |es| - 1;
      var f := Handle(c, limits, Serve(c, limits, es[..n]), es[n].incoming, es[n].now, es[n].at);
      Learned(f, es[n].incoming, Known(c, limits, es[..n], id, peer, conn), id, peer, conn)
  }

  lemma HeardOfOthers(known: set<PeerId>, there: set<PeerId>, news: set<Message>, peer: PeerId)
    requires known - {peer} == there - {peer}
    ensures Heard(known, news) - {peer} == Heard(there, news) - {peer}
  {
    forall p | p != peer
      ensures p in known <==> p in there
    {
      assert p in known - {peer} <==> p in there - {peer};
    }
  }

  /**
   After any run a client whose channel is open in a live room knows exactly which other peers are there,
   from the list in its welcome and the notices it has been sent since.
   */
  lemma {:induction false} ClientsKnowTheRoom(c: Config, limits: Limits, es: seq<Arrival>, id: RoomId, peer: PeerId, conn: Connection)
    requires FreshRooms(c, limits, es) && Hears(Serve(c, limits, es), id, peer, conn)
    ensures Known(c, limits, es, id, peer, conn) - {peer} == Ids(Serve(c, limits, es).dir.rooms[id]) - {peer}
  {
    if es != [] {
      var n := |es| - 1;
      assert forall k :: 0 <= k < n ==> es[..n][..k] == es[..k];
      RegistryFollowsManager(c, limits, es[..n]);
      ServedDistinct(c, limits, es[..n]);
      var s := Serve(c, limits, es[..n]);
      var e := es[n].incoming;
      var f := Handle(c, limits, s, e, es[n].now, es[n].at);
      assert NamesFreshRoom(s, e);
      hide Handle, Hears, Ids, Heard, News, Agreement, AllDistinct, Welcomed, Listed;
      HandleKeepsUp(c, limits, s, e, es[n].now, es[n].at, id, peer, conn);
      if !Welcomed(f, e, id, peer, conn) {
        assert FreshRooms(c, limits, es[..n]);
        ClientsKnowTheRoom(c, limits, es[..n], id, peer, conn);
        HearsMeansLive(s, id, peer, conn);
        HeardOfOthers(Known(c, limits, es[..n], id, peer, conn), Ids(s.dir.rooms[id]), News(f.sent, id, peer, conn), peer);
      }
    }
  }

  lemma HearsMeansLive(s: Server, id: RoomId, peer: PeerId, conn: Connection)
    requires Hears(s, id, peer, conn)
    ensures id in s.dir.rooms
  {
  }
}
