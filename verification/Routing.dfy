/** Routing follows ownership: in a hopping room only the present owner is ever sent a room code. */
module Routing {
  import opened Basics
  import opened Rooms
  import opened RoomDirectory
  import opened RoomSteps
  import opened Sessions
  import opened Gateway
  import opened Wiring
  import Ownership = RoomOwnership

  function MetaOf(r: Room): Meta
  {
    Meta(r.hopping, r.OwnerPeerId())
  }

  /** Every room in the registry is live, and what the registry believes about it is true. */
  ghost predicate Agreement(d: Directory, g: Registry)
  {
    && g.rooms.Keys == g.meta.Keys
    && forall id :: id in g.meta ==> id in d.rooms && g.meta[id] == MetaOf(d.rooms[id])
  }

  // Who owns a room after an event.

  lemma {:induction false} FirstOwnerSame(ps: seq<Peer>, qs: seq<Peer>)
    requires |ps| == |qs|
    requires forall i :: 0 <= i < |ps| ==> ps[i].id == qs[i].id && ps[i].isOwner == qs[i].isOwner
    ensures FirstOwner(ps) == FirstOwner(qs)
  {
    if ps != [] {
      FirstOwnerSame(ps[1..], qs[1..]);
    }
  }

  lemma {:induction false} FirstOwnerAppend(ps: seq<Peer>, p: Peer)
    requires !p.isOwner
    ensures FirstOwner(ps + [p]) == FirstOwner(ps)
  {
    if ps == [] {
      assert FirstOwner([p]) == None;
    } else {
      FirstOwnerAppend(ps[1..], p);
      assert (ps + [p])[1..] == ps[1..] + [p];
    }
  }

  /** Removing anyone but the owner leaves the owner in place. */
  lemma {:induction false} FirstOwnerRemoved(ps: seq<Peer>, i: nat)
    requires i < |ps| && (ps[i].isOwner ==> FirstOwner(ps) != Some(ps[i].id))
    ensures FirstOwner(ps[..i] + ps[i + 1..]) == FirstOwner(ps)
  {
    if i == 0 {
      assert ps[..0] + ps[1..] == ps[1..];
    } else if !ps[0].isOwner {
      FirstOwnerRemoved(ps[1..], i - 1);
      assert (ps[..i] + ps[i + 1..])[1..] == ps[1..][..i - 1] + ps[1..][i..];
    }
  }

  lemma {:induction false} FirstOwnerFlagged(ps: seq<Peer>, peer: PeerId)
    ensures FirstOwner(Flagged(ps, peer)) == if exists i :: 0 <= i < |ps| && ps[i].id == peer then Some(peer) else None
  {
    if ps != [] {
      FirstOwnerFlagged(ps[1..], peer);
      assert Flagged(ps, peer)[1..] == Flagged(ps[1..], peer);
      if ps[0].id != peer && exists i :: 0 <= i < |ps| && ps[i].id == peer {
        var i :| 0 <= i < |ps| && ps[i].id == peer;
        assert ps[1..][i - 1].id == peer;
      }
    }
  }

  lemma {:induction false} LeaveOwner(r: Room, peer: PeerId)
    requires r.HasPeer(peer) && WithoutPeer(r, peer).peers != []
    ensures AfterLeave(r, peer).OwnerPeerId()
         == if r.peers[Position(r.peers, peer)].isOwner then Some(WithoutPeer(r, peer).peers[0].id) else r.OwnerPeerId()
  {
    Ownership.HasPeerPosition(r, peer);
    var i := Position(r.peers, peer);
    var rest := WithoutPeer(r, peer);
    if r.peers[i].isOwner {
      FirstOwnerFlagged(rest.peers, rest.peers[0].id);
    } else {
      FirstOwnerRemoved(r.peers, i);
    }
  }

  lemma KickOwner(r: Room, operator: PeerId, target: PeerId)
    requires r.HasPermission(operator) && operator != target && r.HasPeer(target)
    ensures WithoutPeer(r, target).OwnerPeerId() == r.OwnerPeerId()
  {
    Ownership.HasPeerPosition(r, target);
    FirstOwnerRemoved(r.peers, Position(r.peers, target));
  }

  lemma TransferOwner(r: Room, heir: PeerId)
    requires r.HasPeer(heir)
    ensures WithOwner(r, heir).OwnerPeerId() == Some(heir)
  {
    FirstOwnerFlagged(r.peers, heir);
  }

  lemma HoppingStays(c: Config, r: Room, s: Room, e: Event)
    requires Becomes(c, r, s, e)
    ensures s.hopping == r.hopping
  {
  }

  /** Events other than transfers and departures leave a room's owner in place. */
  lemma OwnerStays(c: Config, r: Room, s: Room, e: Event)
    requires Becomes(c, r, s, e) && !e.op.TransferOp? && !e.op.LeaveOp?
    ensures s.OwnerPeerId() == r.OwnerPeerId()
  {
    if s != r {
      match e.op
      case JoinOp(_, peer, _, key) => FirstOwnerAppend(r.peers, Peer(peer, false, e.now, key, false, None));
      case KickOp(_, operator, target) => KickOwner(r, operator, target);
      case _ =>
        Ownership.OthersSamePeers(c, r, s, e);
        FirstOwnerSame(s.peers, r.peers);
    }
  }

  /** So what the registry believes of surviving rooms stays true through such an event. */
  lemma AgreementThrough(c: Config, d: Directory, g: Registry, e: Event, z: Registry)
    requires Agreement(d, g) && !e.op.TransferOp? && !e.op.LeaveOp?
    requires e.op.CreateOp? ==> e.op.id !in d.rooms
    requires z.rooms.Keys == z.meta.Keys && z.meta.Keys <= Apply(c, d, e).rooms.Keys
    requires forall id :: id in z.meta ==> id in g.meta && z.meta[id] == g.meta[id]
    ensures Agreement(Apply(c, d, e), z)
  {
    var after := Apply(c, d, e);
    forall id | id in z.meta
      ensures id in after.rooms && z.meta[id] == MetaOf(after.rooms[id])
    {
      RoomAfter(c, d, e, id);
      HoppingStays(c, d.rooms[id], after.rooms[id], e);
      OwnerStays(c, d.rooms[id], after.rooms[id], e);
    }
  }

  /** Only a departure, a detonation and a tick remove rooms. */
  lemma SurvivorsOf(c: Config, d: Directory, e: Event)
    requires !e.op.LeaveOp? && !e.op.DetonateOp? && !e.op.TickOp?
    ensures d.rooms.Keys <= Apply(c, d, e).rooms.Keys
  {
  }

  // What reaches whom.

  /** Whose room it is: after the step if it is still live, else before it. */
  function Presiding(before: Directory, after: Directory, id: RoomId): Meta
  {
    if id in after.rooms then MetaOf(after.rooms[id])
    else if id in before.rooms then MetaOf(before.rooms[id])
    else Meta(false, None)
  }

  /** In hopping rooms only the owner is sent a code. */
  ghost predicate Discreet(sent: set<Delivery>, before: Directory, after: Directory)
  {
    forall d :: d in sent && Presiding(before, after, d.room).hopping && CodeIn(d.message) != "" ==>
      Presiding(before, after, d.room).owner == Some(d.peer)
  }

  lemma LetterDiscreet(g: Registry, id: RoomId, peer: PeerId, m: Message, whose: Meta)
    requires peer in PeersIn(g, id) && !m.RoomCreated?
    requires id in g.meta && (g.meta[id] == whose || CodeIn(m) == "")
    ensures var d := DeliveryTo(g, id, peer, m);
            d.room == id && d.peer == peer && (whose.hopping && CodeIn(d.message) != "" ==> whose.owner == Some(peer))
  {
    RedactionRemovesCode(m);
  }

  lemma BroadcastDiscreet(g: Registry, id: RoomId, m: Message, except: Option<PeerId>, before: Directory, after: Directory)
    requires g.rooms.Keys == g.meta.Keys && !m.RoomCreated?
    requires id in g.meta && CodeIn(m) != "" ==> g.meta[id] == Presiding(before, after, id)
    ensures Discreet(Broadcasted(g, id, m, except), before, after)
  {
    forall d | d in Broadcasted(g, id, m, except)
      ensures d.room == id
      ensures Presiding(before, after, id).hopping && CodeIn(d.message) != "" ==> Presiding(before, after, id).owner == Some(d.peer)
    {
      var peer :| peer in PeersIn(g, id) && d == DeliveryTo(g, id, peer, m);
      LetterDiscreet(g, id, peer, m, Presiding(before, after, id));
    }
  }

  lemma SentDiscreet(g: Registry, id: RoomId, peer: PeerId, m: Message, before: Directory, after: Directory)
    requires g.rooms.Keys == g.meta.Keys && !m.RoomCreated?
    requires id in g.meta && CodeIn(m) != "" ==> g.meta[id] == Presiding(before, after, id)
    ensures Discreet(Sent(g, id, peer, m), before, after)
  {
    if peer in PeersIn(g, id) {
      LetterDiscreet(g, id, peer, m, Presiding(before, after, id));
    }
  }

  /** What every handler guarantees. */
  ghost predicate Sound(s: Server, f: Effect)
  {
    Agreement(f.server.dir, f.server.registry) && Discreet(f.sent, s.dir, f.server.dir)
  }

  /** A room made for a peer belongs to that peer. */
  lemma CreatedBelongs(c: Config, d: Directory, id: RoomId, draws: seq<RoomCode>, peer: PeerId, key: RateKey,
                       password: Password, hopping: bool, autoRotate: Option<nat>, now: Timestamp, at: Time)
    requires Create(c, d, id, draws, Some(peer), Some(key), password, hopping, autoRotate, now, at).1.Some?
    ensures var dir := Create(c, d, id, draws, Some(peer), Some(key), password, hopping, autoRotate, now, at).0;
            && id in dir.rooms && MetaOf(dir.rooms[id]) == Meta(hopping, Some(peer))
            && dir.rooms == d.rooms[id := dir.rooms[id]]
  {
    var dir := Create(c, d, id, draws, Some(peer), Some(key), password, hopping, autoRotate, now, at).0;
    assert dir.rooms[id].peers == [Peer(peer, true, now, Some(key), false, None)];
  }

  lemma QuietlyRefused(s: Server, kind: string)
    requires Agreement(s.dir, s.registry)
    ensures Sound(s, Refuse(s, kind))
  {
  }

  lemma WelcomedAgrees(d: Directory, dir: Directory, g: Registry, conn: Connection, id: RoomId, peer: PeerId, meta: Meta)
    requires Agreement(d, g) && id in dir.rooms && MetaOf(dir.rooms[id]) == meta && dir.rooms == d.rooms[id := dir.rooms[id]]
    ensures Agreement(dir, WithMeta(Registered(g, conn, id, peer), id, meta))
  {
  }

  lemma NothingToTell(s: Server, z: Server, replies: seq<Message>)
    requires Agreement(z.dir, z.registry)
    ensures Sound(s, Effect(z, {}, replies))
  {
  }

  lemma CreateSound(c: Config, limits: Limits, s: Server, conn: Connection, id: RoomId, draws: seq<RoomCode>, peer: PeerId,
                    key: RateKey, password: Password, hopping: bool, interval: Option<nat>, now: Timestamp, at: Time)
    requires Agreement(s.dir, s.registry) && id !in s.dir.rooms
    ensures Sound(s, OnCreate(c, limits, s, conn, id, draws, peer, key, password, hopping, interval, now, at))
  {
    hide Create, MetaOf, ActiveByOwnerKey, Agreement, Discreet, IsBound, Sound, Registered, WithMeta;
    var f := OnCreate(c, limits, s, conn, id, draws, peer, key, password, hopping, interval, now, at);
    var autoRotate := if hopping && interval.Some? && interval.value > 0 then interval else None;
    var (dir, code) := Create(c, s.dir, id, draws, Some(peer), Some(key), password, hopping, autoRotate, now, at);
    if f.server != s {
      CreatedBelongs(c, s.dir, id, draws, peer, key, password, hopping, autoRotate, now, at);
      WelcomedAgrees(s.dir, dir, s.registry, conn, id, peer, Meta(hopping, Some(peer)));
    }
    NothingToTell(s, f.server, f.replies);
  }

  lemma JoinedSound(c: Config, s: Server, conn: Connection, id: RoomId, code: RoomCode, peer: PeerId, secret: Option<string>,
                    key: RateKey, draws: seq<RoomCode>, now: Timestamp, at: Time)
    requires Agreement(s.dir, s.registry) && id in s.dir.rooms
    requires Join(c, s.dir, id, peer, false, secret, now, Some(key)).1.None?
    ensures var dir := Join(c, s.dir, id, peer, false, secret, now, Some(key)).0;
            Sound(s, Joined(s, conn, dir, id, s.dir.rooms[id], code, peer, draws, at))
  {
    var r := s.dir.rooms[id];
    var joining := Event(now, JoinOp(id, peer, secret, Some(key)));
    var dir := Apply(c, s.dir, joining);
    var f := Joined(s, conn, dir, id, r, code, peer, draws, at);
    var g := f.server.registry;
    SurvivorsOf(c, s.dir, joining);
    AgreementThrough(c, s.dir, s.registry, joining, s.registry);
    RoomAfter(c, s.dir, joining, id);
    HoppingStays(c, r, dir.rooms[id], joining);
    OwnerStays(c, r, dir.rooms[id], joining);
    assert Agreement(dir, g);
    if r.hopping {
      var rotating := Event(now, RotateOp(id, draws, at));
      SurvivorsOf(c, dir, rotating);
      AgreementThrough(c, dir, g, rotating, g);
      assert f.server.dir == Apply(c, dir, rotating);
    }
    assert Agreement(f.server.dir, g);
    BroadcastDiscreet(g, id, PeerJoined(peer), Some(peer), s.dir, f.server.dir);
    var result := Rotate(dir, id, draws, at).1;
    if r.hopping && result.Success? && r.OwnerPeerId().Some? {
      SentDiscreet(g, id, r.OwnerPeerId().value, RoomCodeRotated(result.value), s.dir, f.server.dir);
    }
  }

  lemma JoinSound(c: Config, s: Server, conn: Connection, refused: Option<string>, code: Option<RoomCode>, peer: PeerId,
                  secret: Option<string>, key: RateKey, draws: seq<RoomCode>, now: Timestamp, at: Time)
    requires Agreement(s.dir, s.registry)
    ensures Sound(s, OnJoin(c, s, conn, refused, code, peer, secret, key, draws, now, at))
  {
    if !IsBound(s, conn) && refused.None? && code.Some? && code.value in s.dir.index {
      var id := s.dir.index[code.value];
      if id in s.dir.rooms && Join(c, s.dir, id, peer, false, secret, now, Some(key)).1.None? {
        JoinedSound(c, s, conn, id, code.value, peer, secret, key, draws, now, at);
      }
    }
  }

  lemma RelaySound(s: Server, conn: Connection, target: PeerId)
    requires Agreement(s.dir, s.registry)
    ensures Sound(s, OnRelay(s, conn, target))
  {
    if conn in s.session {
      SentDiscreet(s.registry, s.session[conn].0, target, Relayed(s.session[conn].1), s.dir, s.dir);
    }
  }

  /** A handler that only applies an operation which moves neither rooms nor owners, and then broadcasts. */
  lemma QuietSound(c: Config, s: Server, e: Event, m: Message, except: Option<PeerId>)
    requires Agreement(s.dir, s.registry) && !m.RoomCreated?
    requires e.op.RekeyOp? || e.op.KickOp? || e.op.LockOp? || e.op.ModerateOp? || e.op.RotateOp? || e.op.ExtendOp? || e.op.CloseOp?
    ensures Agreement(Apply(c, s.dir, e), s.registry)
    ensures Discreet(Broadcasted(s.registry, e.op.id, m, except), s.dir, Apply(c, s.dir, e))
  {
    SurvivorsOf(c, s.dir, e);
    AgreementThrough(c, s.dir, s.registry, e, s.registry);
    BroadcastDiscreet(s.registry, e.op.id, m, except, s.dir, Apply(c, s.dir, e));
  }

  lemma RekeySound(c: Config, s: Server, conn: Connection, secret: string)
    requires Agreement(s.dir, s.registry)
    ensures Sound(s, OnRekey(s, conn, secret))
  {
    hide Agreement, Discreet, Broadcasted, Rekey;
    if conn in s.session {
      var (id, sender) := s.session[conn];
      var (dir, error) := RekeyRoom(s.dir, id, sender, secret);
      if id in s.dir.rooms && s.dir.rooms[id].IsOwner(sender) && error.None? {
        QuietSound(c, s, Event(0, RekeyOp(id, sender, secret)), RekeyNotice(dir.rooms[id].code), None);
      } else {
        QuietlyRefused(s, if id in s.dir.rooms && s.dir.rooms[id].IsOwner(sender) then ErrorKind(error.value) else "UNAUTHORIZED");
      }
    } else {
      QuietlyRefused(s, "NOT_IN_ROOM");
    }
  }

  /** Telling a room's peer and then the others is as discreet as each of the two. */
  lemma BothDiscreet(sent: set<Delivery>, more: set<Delivery>, before: Directory, after: Directory)
    requires Discreet(sent, before, after) && Discreet(more, before, after)
    ensures Discreet(sent + more, before, after)
  {
  }

  lemma KickedSound(c: Config, s: Server, id: RoomId, sender: PeerId, target: PeerId)
    requires Agreement(s.dir, s.registry)
    ensures var dir := Kick(s.dir, id, sender, target).0;
            && Agreement(dir, s.registry)
            && Discreet(Sent(s.registry, id, target, ErrorNotice("KICKED_FROM_ROOM"))
                        + Broadcasted(s.registry, id, PeerLeft(target), Some(target)), s.dir, dir)
  {
    hide Discreet, Broadcasted, Sent, Kick;
    var dir := Kick(s.dir, id, sender, target).0;
    QuietSound(c, s, Event(0, KickOp(id, sender, target)), PeerLeft(target), Some(target));
    SentDiscreet(s.registry, id, target, ErrorNotice("KICKED_FROM_ROOM"), s.dir, dir);
    BothDiscreet(Sent(s.registry, id, target, ErrorNotice("KICKED_FROM_ROOM")),
                 Broadcasted(s.registry, id, PeerLeft(target), Some(target)), s.dir, dir);
  }

  lemma KickSound(c: Config, s: Server, conn: Connection, target: PeerId)
    requires Agreement(s.dir, s.registry)
    ensures Sound(s, OnKick(s, conn, target))
  {
    hide Agreement, Discreet, Broadcasted, Sent, Kick, Permits;
    if conn in s.session {
      KickedSound(c, s, s.session[conn].0, s.session[conn].1, target);
      if OnKick(s, conn, target).replies != [] {
        QuietlyRefused(s, OnKick(s, conn, target).replies[0].kind);
      }
    } else {
      QuietlyRefused(s, "NOT_IN_ROOM");
    }
  }

  lemma LockSound(c: Config, s: Server, conn: Connection, locked: bool)
    requires Agreement(s.dir, s.registry)
    ensures Sound(s, OnLock(s, conn, locked))
  {
    if conn in s.session && Permits(s.dir, s.session[conn].0, s.session[conn].1) {
      var (id, sender) := s.session[conn];
      QuietSound(c, s, Event(0, LockOp(id, sender, locked)),
                 RoomLockedNotice(LockRoom(s.dir, id, sender, locked).0.rooms[id].code, locked), None);
    }
  }

  lemma ModerateSound(c: Config, s: Server, conn: Connection, target: PeerId, m: Moderation)
    requires Agreement(s.dir, s.registry)
    ensures Sound(s, OnModerate(s, conn, target, m))
  {
    hide Agreement, Discreet, Broadcasted, Moderate, ModerationNotice, Permits;
    if conn in s.session {
      var (id, sender) := s.session[conn];
      assert !ModerationNotice(target, m).RoomCreated? by { NoticeIsNoAcknowledgment(target, m); }
      QuietSound(c, s, Event(0, ModerateOp(id, sender, target, m)), ModerationNotice(target, m), None);
      if OnModerate(s, conn, target, m).replies != [] {
        QuietlyRefused(s, OnModerate(s, conn, target, m).replies[0].kind);
      }
    } else {
      QuietlyRefused(s, "NOT_IN_ROOM");
    }
  }

  lemma NoticeIsNoAcknowledgment(target: PeerId, m: Moderation)
    ensures !ModerationNotice(target, m).RoomCreated?
  {
  }

  /** The registry that has been told of the new owner agrees with the directory that has one. */
  lemma HandedOver(d: Directory, g: Registry, id: RoomId, r: Room, heir: PeerId)
    requires Agreement(d, g) && id in d.rooms && r.hopping == d.rooms[id].hopping && r.OwnerPeerId() == Some(heir)
    ensures Agreement(Put(d, id, r), WithOwnerMeta(g, id, Some(heir)))
  {
  }

  lemma AnnouncedDiscreet(g: Registry, id: RoomId, code: RoomCode, heir: PeerId, hopping: bool, before: Directory, after: Directory)
    requires Agreement(after, g)
    ensures Discreet(Announced(g, id, code, heir, hopping), before, after)
  {
    BroadcastDiscreet(g, id, RoomOwnerChanged(code, heir), None, before, after);
    SentDiscreet(g, id, heir, RoomCodeRotated(code), before, after);
  }

  lemma TransferSound(s: Server, conn: Connection, heir: PeerId)
    requires Agreement(s.dir, s.registry)
    ensures Sound(s, OnTransfer(s, conn, heir))
  {
    if conn in s.session {
      var (id, sender) := s.session[conn];
      if Permits(s.dir, id, sender) && sender != heir && s.dir.rooms[id].HasPeer(heir) {
        var r := s.dir.rooms[id];
        TransferOwner(r, heir);
        HandedOver(s.dir, s.registry, id, WithOwner(r, heir), heir);
        AnnouncedDiscreet(WithOwnerMeta(s.registry, id, Some(heir)), id, r.code, heir, r.hopping,
                          s.dir, Put(s.dir, id, WithOwner(r, heir)));
      }
    }
  }

  /** Forgetting a room together with its removal keeps the agreement, and what was sent on the way is discreet. */
  lemma RemovalSound(d: Directory, g: Registry, id: RoomId, code: RoomCode, m: Message)
    requires Agreement(d, g) && id in d.rooms && !m.RoomCreated?
    ensures Agreement(Drop(d, id, code), Forgotten(g, id))
    ensures Discreet(Broadcasted(g, id, m, None), d, Drop(d, id, code))
  {
    BroadcastDiscreet(g, id, m, None, d, Drop(d, id, code));
  }

  lemma DetonateSound(s: Server, conn: Connection)
    requires Agreement(s.dir, s.registry)
    ensures Sound(s, OnDetonate(s, conn))
  {
    if conn in s.session && Permits(s.dir, s.session[conn].0, s.session[conn].1) {
      var id := s.session[conn].0;
      RemovalSound(s.dir, s.registry, id, s.dir.rooms[id].code, RoomDetonated(s.dir.rooms[id].code));
    }
  }

  lemma DisconnectedAgrees(d: Directory, g: Registry, conn: Connection)
    requires Agreement(d, g)
    ensures Agreement(d, Disconnected(g, conn))
  {
  }

  lemma DepartedSound(s: Server, id: RoomId, peer: PeerId)
    requires Agreement(s.dir, s.registry)
    ensures Sound(s, Departed(s, id, peer))
  {
    if id in s.dir.rooms && s.dir.rooms[id].HasPeer(peer) {
      var r := s.dir.rooms[id];
      if WithoutPeer(r, peer).peers == [] {
        RemovalSound(s.dir, s.registry, id, r.code, RoomClosed(r.code, "room_empty"));
      } else {
        var left := AfterLeave(r, peer);
        var dir := Put(s.dir, id, left);
        LeaveOwner(r, peer);
        BroadcastDiscreet(s.registry, id, PeerLeft(peer), None, s.dir, dir);
        if r.peers[Position(r.peers, peer)].isOwner {
          var heir := WithoutPeer(r, peer).peers[0].id;
          HandedOver(s.dir, s.registry, id, left, heir);
          AnnouncedDiscreet(WithOwnerMeta(s.registry, id, Some(heir)), id, r.code, heir, left.hopping, s.dir, dir);
        }
      }
    }
  }

  lemma DisconnectSound(s: Server, conn: Connection)
    requires Agreement(s.dir, s.registry)
    ensures Sound(s, OnDisconnect(s, conn))
  {
    var closed := s.(registry := Disconnected(s.registry, conn), session := s.session - {conn});
    DisconnectedAgrees(s.dir, s.registry, conn);
    if conn in s.session {
      DepartedSound(closed, s.session[conn].0, s.session[conn].1);
    } else if conn in s.registry.connections {
      DepartedSound(closed, s.registry.connections[conn].0, s.registry.connections[conn].1);
    }
  }

  lemma TickRoom(c: Config, d: Directory, now: Timestamp, id: RoomId)
    requires id in d.rooms && !Dies(c, d.rooms[id], now)
    ensures id in Tick(c, d, now).rooms && MetaOf(Tick(c, d, now).rooms[id]) == MetaOf(d.rooms[id])
  {
    var e := Event(now, TickOp);
    var after := Tick(c, d, now);
    assert after.rooms[id] == Swept(c, d.rooms[id], now).0;
    HoppingStays(c, d.rooms[id], after.rooms[id], e);
    OwnerStays(c, d.rooms[id], after.rooms[id], e);
  }

  /** The registry after the sweeper's purge. */
  lemma PurgeAgrees(c: Config, d: Directory, g: Registry, dead: set<RoomId>, now: Timestamp)
    requires Agreement(d, g) && forall id :: id in d.rooms ==> (id in dead <==> Dies(c, d.rooms[id], now))
    ensures Agreement(Tick(c, d, now), g.(rooms := g.rooms - dead, meta := g.meta - dead))
  {
    forall id | id in g.meta && id !in dead
      ensures id in Tick(c, d, now).rooms && g.meta[id] == MetaOf(Tick(c, d, now).rooms[id])
    {
      TickRoom(c, d, now, id);
    }
  }

  lemma TickAgrees(c: Config, s: Server, now: Timestamp)
    requires Agreement(s.dir, s.registry)
    ensures var f := OnTick(c, s, now); Agreement(f.server.dir, f.server.registry)
  {
    PurgeAgrees(c, s.dir, s.registry, (set id | id in s.dir.rooms && Dies(c, s.dir.rooms[id], now)), now);
  }

  lemma TickPresiding(c: Config, s: Server, now: Timestamp, id: RoomId)
    requires Agreement(s.dir, s.registry) && id in s.registry.meta
    ensures s.registry.meta[id] == Presiding(s.dir, Tick(c, s.dir, now), id)
  {
    if !Dies(c, s.dir.rooms[id], now) {
      TickRoom(c, s.dir, now, id);
    }
  }

  lemma TickMailDiscreet(c: Config, s: Server, later: Registry, now: Timestamp, id: RoomId)
    requires Agreement(s.dir, s.registry) && id in s.dir.rooms && later.rooms.Keys == later.meta.Keys
    ensures Discreet(TickMail(c, s, later, now, id), s.dir, Tick(c, s.dir, now))
  {
    var r := s.dir.rooms[id];
    var after := Tick(c, s.dir, now);
    if id in s.registry.meta {
      TickPresiding(c, s, now, id);
    }
    BroadcastDiscreet(s.registry, id, ClosingNotice(r.code, now), None, s.dir, after);
    BroadcastDiscreet(s.registry, id, RoomClosed(r.code, "lifetime_or_grace_period_expired"), None, s.dir, after);
    forall i | 0 <= i < |r.peers|
      ensures Discreet(Broadcasted(later, id, PeerUnmuted(r.peers[i].id), None), s.dir, after)
    {
      BroadcastDiscreet(later, id, PeerUnmuted(r.peers[i].id), None, s.dir, after);
    }
  }

  lemma TickSound(c: Config, s: Server, now: Timestamp)
    requires Agreement(s.dir, s.registry)
    ensures Sound(s, OnTick(c, s, now))
  {
    var f := OnTick(c, s, now);
    TickAgrees(c, s, now);
    forall id | id in s.dir.rooms
      ensures Discreet(TickMail(c, s, f.server.registry, now, id), s.dir, Tick(c, s.dir, now))
    {
      TickMailDiscreet(c, s, f.server.registry, now, id);
    }
  }

  lemma AutoRotateSound(c: Config, s: Server, id: RoomId, draws: seq<RoomCode>, at: Time)
    requires Agreement(s.dir, s.registry)
    ensures Sound(s, OnAutoRotate(s, id, draws, at))
  {
    var e := Event(0, RotateOp(id, draws, at));
    SurvivorsOf(c, s.dir, e);
    AgreementThrough(c, s.dir, s.registry, e, s.registry);
    var (dir, result) := Rotate(s.dir, id, draws, at);
    assert dir == Apply(c, s.dir, e);
    if id in s.dir.rooms && s.dir.rooms[id].OwnerPeerId().Some? && result.Success? {
      SentDiscreet(s.registry, id, s.dir.rooms[id].OwnerPeerId().value, RoomCodeRotated(result.value), s.dir, dir);
    }
  }

  lemma HttpCreateSound(c: Config, limits: Limits, s: Server, id: RoomId, draws: seq<RoomCode>, owner: Option<PeerId>, key: RateKey,
                        password: Password, now: Timestamp, at: Time)
    requires Agreement(s.dir, s.registry) && id !in s.dir.rooms
    ensures Sound(s, OnHttpCreate(c, limits, s, id, draws, owner, key, password, now, at))
  {
    var e := Event(now, CreateOp(id, draws, owner, Some(key), password, false, None, at));
    SurvivorsOf(c, s.dir, e);
    AgreementThrough(c, s.dir, s.registry, e, s.registry);
  }

  lemma HttpExtendSound(c: Config, s: Server, code: RoomCode, peer: PeerId)
    requires Agreement(s.dir, s.registry)
    ensures Sound(s, OnHttpExtend(c, s, code, peer))
  {
    if code in s.dir.index {
      QuietSound(c, s, Event(0, ExtendOp(s.dir.index[code], peer)), PeerLeft(""), None);
    }
  }

  lemma HttpCloseSound(c: Config, s: Server, code: RoomCode, peer: PeerId, now: Timestamp)
    requires Agreement(s.dir, s.registry)
    ensures Sound(s, OnHttpClose(c, s, code, peer, now))
  {
    if code in s.dir.index {
      var id := s.dir.index[code];
      var (dir, error) := CloseRoom(c, s.dir, id, peer, now);
      QuietSound(c, s, Event(now, CloseOp(id, peer)), ClosingNotice(if error.None? then dir.rooms[id].code else "", now), None);
    }
  }

  /** Room ids handed out are not ids of live rooms. */
  predicate NamesFreshRoom(s: Server, e: Incoming)
  {
    (e.CreateMessage? ==> e.id !in s.dir.rooms) && (e.HttpCreate? ==> e.id !in s.dir.rooms)
  }

  lemma HandleSound(c: Config, limits: Limits, s: Server, e: Incoming, now: Timestamp, at: Time)
    requires Agreement(s.dir, s.registry) && NamesFreshRoom(s, e)
    ensures Sound(s, Handle(c, limits, s, e, now, at))
  {
    hide Sound, Agreement, OnCreate, OnJoin, OnRelay, OnRekey, OnKick, OnTransfer, OnLock, OnModerate, OnDetonate, OnDisconnect, OnTick;
    match e
    case CreateMessage(conn, id, draws, peer, key, password, hopping, interval) =>
      CreateSound(c, limits, s, conn, id, draws, peer, key, password, hopping, interval, now, at);
    case JoinMessage(conn, refused, code, peer, secret, key, draws) =>
      JoinSound(c, s, conn, refused, code, peer, secret, key, draws, now, at);
    case RelayMessage(conn, target) => RelaySound(s, conn, target);
    case RekeyMessage(conn, secret) => RekeySound(c, s, conn, secret);
    case KickMessage(conn, target) => KickSound(c, s, conn, target);
    case TransferMessage(conn, target) => TransferSound(s, conn, target);
    case LockMessage(conn, locked) => LockSound(c, s, conn, locked);
    case ModerateMessage(conn, target, moderation) => ModerateSound(c, s, conn, target, moderation);
    case DetonateMessage(conn) => DetonateSound(s, conn);
    case Disconnect(conn) => DisconnectSound(s, conn);
    case SweeperTick => TickSound(c, s, now);
    case AutoRotation(id, draws) => AutoRotateSound(c, s, id, draws, at);
    case HttpCreate(id, draws, owner, key, password) => HttpCreateSound(c, limits, s, id, draws, owner, key, password, now, at);
    case HttpExtend(code, peer) => HttpExtendSound(c, s, code, peer);
    case HttpClose(code, peer) => HttpCloseSound(c, s, code, peer, now);
  }

  datatype Arrival = Arrival(incoming: Incoming, now: Timestamp, at: Time)

  const NOTHING := Server(EMPTY, Registry(map[], map[], map[]), map[])

  function Serve(c: Config, limits: Limits, es: seq<Arrival>): Server
  {
    if es == [] then NOTHING
    else
      var e := es[|es| - 1];
      Handle(c, limits, Serve(c, limits, es[..|es| - 1]), e.incoming, e.now, e.at).server
  }

  ghost predicate FreshRooms(c: Config, limits: Limits, es: seq<Arrival>)
  {
    forall n :: 0 <= n < |es| ==> NamesFreshRoom(Serve(c, limits, es[..n]), es[n].incoming)
  }

  /**
   After any sequence of client messages, disconnects, ticks and requests, the registry is right about
   every room it holds, and each of its channels is the socket registered for that room and peer.
   */
  lemma {:induction false} RegistryFollowsManager(c: Config, limits: Limits, es: seq<Arrival>)
    requires FreshRooms(c, limits, es)
    ensures Agreement(Serve(c, limits, es).dir, Serve(c, limits, es).registry) && Connected(Serve(c, limits, es))
  {
    if es != [] {
      var n := |es| - 1;
      assert forall k :: 0 <= k < n ==> es[..n][..k] == es[..k];
      RegistryFollowsManager(c, limits, es[..n]);
      HandleSound(c, limits, Serve(c, limits, es[..n]), es[n].incoming, es[n].now, es[n].at);
      HandleAddressed(c, limits, Serve(c, limits, es[..n]), es[n].incoming, es[n].now, es[n].at);
    }
  }

  /** A direct reply carries a code only to a caller who has just created or joined a room, and none of a hopping room unless the caller owns it. */
  ghost predicate ReplyDiscreet(z: Server, e: Incoming, m: Message)
  {
    CodeIn(m) != "" ==>
      && (e.CreateMessage? || e.JoinMessage?) && e.conn in z.session
      && var (id, peer) := z.session[e.conn];
         id in z.dir.rooms && (z.dir.rooms[id].hopping ==> z.dir.rooms[id].OwnerPeerId() == Some(peer))
  }

  lemma CreateRepliesDiscreet(c: Config, limits: Limits, s: Server, e: Incoming, now: Timestamp, at: Time, m: Message)
    requires e.CreateMessage? && m in Handle(c, limits, s, e, now, at).replies
    ensures ReplyDiscreet(Handle(c, limits, s, e, now, at).server, e, m)
  {
    hide Create, ActiveByOwnerKey;
    var autoRotate := if e.hopping && e.interval.Some? && e.interval.value > 0 then e.interval else None;
    if Create(c, s.dir, e.id, e.draws, Some(e.peer), Some(e.key), e.password, e.hopping, autoRotate, now, at).1.Some? {
      CreatedBelongs(c, s.dir, e.id, e.draws, e.peer, e.key, e.password, e.hopping, autoRotate, now, at);
    }
  }

  lemma JoinRepliesDiscreet(c: Config, limits: Limits, s: Server, e: Incoming, now: Timestamp, at: Time, m: Message)
    requires e.JoinMessage? && m in Handle(c, limits, s, e, now, at).replies
    ensures ReplyDiscreet(Handle(c, limits, s, e, now, at).server, e, m)
  {
    if CodeIn(m) != "" {
      var id := s.dir.index[e.code.value];
      assert !s.dir.rooms[id].hopping;
    }
  }

  lemma OtherRepliesBare(c: Config, limits: Limits, s: Server, e: Incoming, now: Timestamp, at: Time, m: Message)
    requires !e.CreateMessage? && !e.JoinMessage? && m in Handle(c, limits, s, e, now, at).replies
    ensures CodeIn(m) == ""
  {
  }

  lemma RepliesDiscreet(c: Config, limits: Limits, s: Server, e: Incoming, now: Timestamp, at: Time, m: Message)
    requires m in Handle(c, limits, s, e, now, at).replies
    ensures ReplyDiscreet(Handle(c, limits, s, e, now, at).server, e, m)
  {
    hide Handle;
    if e.CreateMessage? {
      CreateRepliesDiscreet(c, limits, s, e, now, at, m);
    } else if e.JoinMessage? {
      JoinRepliesDiscreet(c, limits, s, e, now, at, m);
    } else {
      OtherRepliesBare(c, limits, s, e, now, at, m);
    }
  }

  /**
   So at every step of every run, what goes into channels with a code of a hopping room is meant for
   its owner and goes into the socket registered for that owner in that room, and the reply to the
   caller has no such code unless the caller is that owner.
   */
  lemma {:induction false} CodesReachOnlyOwners(c: Config, limits: Limits, es: seq<Arrival>, n: nat)
    requires FreshRooms(c, limits, es) && n < |es|
    ensures var s := Serve(c, limits, es[..n]);
            var f := Handle(c, limits, s, es[n].incoming, es[n].now, es[n].at);
            && Discreet(f.sent, s.dir, f.server.dir)
            && Addressed(f.sent, f.server.registry.connections)
            && forall m :: m in f.replies ==> ReplyDiscreet(f.server, es[n].incoming, m)
  {
    hide Handle, Discreet, Addressed, ReplyDiscreet;
    assert forall k :: 0 <= k < n ==> es[..n][..k] == es[..k];
    RegistryFollowsManager(c, limits, es[..n]);
    var s := Serve(c, limits, es[..n]);
    HandleSound(c, limits, s, es[n].incoming, es[n].now, es[n].at);
    HandleAddressed(c, limits, s, es[n].incoming, es[n].now, es[n].at);
    forall m | m in Handle(c, limits, s, es[n].incoming, es[n].now, es[n].at).replies
      ensures ReplyDiscreet(Handle(c, limits, s, es[n].incoming, es[n].now, es[n].at).server, es[n].incoming, m)
    {
      RepliesDiscreet(c, limits, s, es[n].incoming, es[n].now, es[n].at, m);
    }
  }
}
