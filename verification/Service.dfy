/** Runs of the signaling server as runs of the manager: what every directory operation keeps, every handler keeps. */
module Service {
  import opened Basics
  import opened Rooms
  import opened RoomDirectory
  import opened RoomSteps
  import opened RoomIndex
  import opened RoomRotation
  import opened Sessions
  import opened Gateway
  import opened Routing

  function ApplyAll(c: Config, d: Directory, ops: seq<Op>, now: Timestamp): Directory
  {
    if ops == [] then d else Apply(c, ApplyAll(c, d, ops[..|ops| - 1], now), Event(now, ops[|ops| - 1]))
  }

  lemma {:induction false} ApplyOne(c: Config, d: Directory, op: Op, now: Timestamp)
    ensures ApplyAll(c, d, [op], now) == Apply(c, d, Event(now, op))
  {
    assert [op][..0] == [];
  }

  lemma {:induction false} ApplyTwo(c: Config, d: Directory, a: Op, b: Op, now: Timestamp)
    ensures ApplyAll(c, d, [a, b], now) == Apply(c, Apply(c, d, Event(now, a)), Event(now, b))
  {
    assert [a, b][..1] == [a];
    ApplyOne(c, d, a, now);
  }

  /** The codes a handler's generator draws. */
  function DrawsOf(e: Incoming): seq<RoomCode>
  {
    if e.CreateMessage? || e.JoinMessage? || e.AutoRotation? || e.HttpCreate? then e.draws else []
  }

  lemma {:induction false} NoOps(c: Config, d: Directory, now: Timestamp)
    ensures ApplyAll(c, d, [], now) == d
  {
  }

  /** The operations a join carries out. */
  function JoinOps(r: Room, id: RoomId, peer: PeerId, secret: Option<string>, key: RateKey, draws: seq<RoomCode>, at: Time): seq<Op>
  {
    [JoinOp(id, peer, secret, Some(key))] + if r.hopping then [RotateOp(id, draws, at)] else []
  }

  lemma JoinIsOps(c: Config, s: Server, conn: Connection, refused: Option<string>, code: Option<RoomCode>, peer: PeerId,
                  secret: Option<string>, key: RateKey, draws: seq<RoomCode>, now: Timestamp, at: Time) returns (ops: seq<Op>)
    ensures OnJoin(c, s, conn, refused, code, peer, secret, key, draws, now, at).server.dir == ApplyAll(c, s.dir, ops, now)
    ensures forall op :: op in ops ==> op.JoinOp? || (op.RotateOp? && op.draws == draws)
  {
    ops := [];
    if OnJoin(c, s, conn, refused, code, peer, secret, key, draws, now, at).server.dir != s.dir {
      var id := s.dir.index[code.value];
      var r := s.dir.rooms[id];
      ops := JoinOps(r, id, peer, secret, key, draws, at);
      ApplyOne(c, s.dir, JoinOp(id, peer, secret, Some(key)), now);
      ApplyTwo(c, s.dir, JoinOp(id, peer, secret, Some(key)), RotateOp(id, draws, at), now);
    }
  }

  /** The room and peer a socket acts for. */
  function ActorOf(s: Server, conn: Connection): (RoomId, PeerId)
  {
    if conn in s.session then s.session[conn] else if conn in s.registry.connections then s.registry.connections[conn] else (0, "")
  }

  /** The operation of a handler other than a join. */
  function OpOf(s: Server, e: Incoming, at: Time): Op
  {
    match e
    case CreateMessage(_, id, draws, peer, key, password, hopping, interval) =>
      CreateOp(id, draws, Some(peer), Some(key), password, hopping,
               if hopping && interval.Some? && interval.value > 0 then interval else None, at)
    case RekeyMessage(conn, secret) => var (id, sender) := ActorOf(s, conn); RekeyOp(id, sender, secret)
    case KickMessage(conn, target) => var (id, sender) := ActorOf(s, conn); KickOp(id, sender, target)
    case TransferMessage(conn, target) => var (id, sender) := ActorOf(s, conn); TransferOp(id, sender, target)
    case LockMessage(conn, locked) => var (id, sender) := ActorOf(s, conn); LockOp(id, sender, locked)
    case ModerateMessage(conn, target, m) => var (id, sender) := ActorOf(s, conn); ModerateOp(id, sender, target, m)
    case DetonateMessage(conn) => var (id, sender) := ActorOf(s, conn); DetonateOp(id, sender)
    case Disconnect(conn) => var (id, peer) := ActorOf(s, conn); LeaveOp(id, peer)
    case AutoRotation(id, draws) => RotateOp(id, draws, at)
    case HttpCreate(id, draws, owner, key, password) => CreateOp(id, draws, owner, Some(key), password, false, None, at)
    case HttpExtend(code, peer) => ExtendOp(if code in s.dir.index then s.dir.index[code] else 0, peer)
    case HttpClose(code, peer) => CloseOp(if code in s.dir.index then s.dir.index[code] else 0, peer)
    case _ => TickOp
  }

  lemma CreationIsOp(c: Config, limits: Limits, s: Server, e: Incoming, now: Timestamp, at: Time)
    requires e.CreateMessage? || e.HttpCreate?
    requires Handle(c, limits, s, e, now, at).server.dir != s.dir
    ensures Handle(c, limits, s, e, now, at).server.dir == Apply(c, s.dir, Event(now, OpOf(s, e, at)))
  {
    hide FirstUnused, NewRoom, ActiveByOwnerKey, Registered, WithMeta;
  }

  /** The message comes from somebody the server can place: a socket in a room, or a request that names a room. */
  predicate HasActor(s: Server, e: Incoming)
  {
    match e
    case RekeyMessage(conn, _) => conn in s.session
    case KickMessage(conn, _) => conn in s.session
    case TransferMessage(conn, _) => conn in s.session
    case LockMessage(conn, _) => conn in s.session
    case ModerateMessage(conn, _, _) => conn in s.session
    case DetonateMessage(conn) => conn in s.session
    case Disconnect(conn) => conn in s.session || conn in s.registry.connections
    case HttpExtend(code, _) => code in s.dir.index
    case HttpClose(code, _) => code in s.dir.index
    case SweeperTick => true
    case _ => false
  }

  lemma RoomCommandIsOp(c: Config, limits: Limits, s: Server, e: Incoming, now: Timestamp, at: Time)
    requires HasActor(s, e) && (e.RekeyMessage? || e.LockMessage? || e.DetonateMessage?)
    ensures Handle(c, limits, s, e, now, at).server.dir == Apply(c, s.dir, Event(now, OpOf(s, e, at)))
  {
    var (id, sender) := ActorOf(s, e.conn);
    if id in s.dir.rooms {
      FirstOwnerIs(s.dir.rooms[id].peers);
    }
    hide FirstOwner, Broadcasted, Forgotten;
  }

  lemma PeerCommandIsOp(c: Config, limits: Limits, s: Server, e: Incoming, now: Timestamp, at: Time)
    requires HasActor(s, e) && (e.KickMessage? || e.TransferMessage? || e.ModerateMessage?)
    ensures Handle(c, limits, s, e, now, at).server.dir == Apply(c, s.dir, Event(now, OpOf(s, e, at)))
  {
    hide FirstOwner, WithoutPeer, WithOwner, Moderated, Broadcasted, Sent, Announced;
  }

  lemma ArrivalIsOp(c: Config, limits: Limits, s: Server, e: Incoming, now: Timestamp, at: Time)
    requires HasActor(s, e) && (e.Disconnect? || e.HttpExtend? || e.HttpClose? || e.SweeperTick?)
    ensures Handle(c, limits, s, e, now, at).server.dir == Apply(c, s.dir, Event(now, OpOf(s, e, at)))
  {
    hide Extend, Close, AfterLeave, WithoutPeer, Swept, Broadcasted, Sent, Announced, TickMail, Disconnected, Forgotten, WithOwnerMeta;
  }

  /**
   The gateway's own checks refuse nothing that the manager would allow: what a member asks for over its
   socket, or a request over HTTP, is done to the rooms exactly as the manager does it.
   */
  lemma CommandsReachManager(c: Config, limits: Limits, s: Server, e: Incoming, now: Timestamp, at: Time)
    requires HasActor(s, e)
    ensures Handle(c, limits, s, e, now, at).server.dir == Apply(c, s.dir, Event(now, OpOf(s, e, at)))
  {
    hide Handle, Apply, OpOf;
    if e.RekeyMessage? || e.LockMessage? || e.DetonateMessage? {
      RoomCommandIsOp(c, limits, s, e, now, at);
    } else if e.KickMessage? || e.TransferMessage? || e.ModerateMessage? {
      PeerCommandIsOp(c, limits, s, e, now, at);
    } else {
      ArrivalIsOp(c, limits, s, e, now, at);
    }
  }

  lemma UnplacedIsOp(c: Config, limits: Limits, s: Server, e: Incoming, now: Timestamp, at: Time)
    requires !HasActor(s, e) && !e.CreateMessage? && !e.HttpCreate? && !e.JoinMessage?
    requires Handle(c, limits, s, e, now, at).server.dir != s.dir
    ensures Handle(c, limits, s, e, now, at).server.dir == Apply(c, s.dir, Event(now, OpOf(s, e, at)))
  {
    hide FirstUnused, FirstOwner, Disconnected, OnTick;
  }

  lemma HandleIsOp(c: Config, limits: Limits, s: Server, e: Incoming, now: Timestamp, at: Time)
    requires !e.JoinMessage? && Handle(c, limits, s, e, now, at).server.dir != s.dir
    ensures Handle(c, limits, s, e, now, at).server.dir == Apply(c, s.dir, Event(now, OpOf(s, e, at)))
  {
    hide Handle, Apply, OpOf, HasActor;
    if e.CreateMessage? || e.HttpCreate? {
      CreationIsOp(c, limits, s, e, now, at);
    } else if HasActor(s, e) {
      CommandsReachManager(c, limits, s, e, now, at);
    } else {
      UnplacedIsOp(c, limits, s, e, now, at);
    }
  }

  /** Every handler carries out at most two operations of the manager, and creates no room but the one it was asked to. */
  lemma HandleIsOps(c: Config, limits: Limits, s: Server, e: Incoming, now: Timestamp, at: Time) returns (ops: seq<Op>)
    ensures Handle(c, limits, s, e, now, at).server.dir == ApplyAll(c, s.dir, ops, now)
    ensures forall op :: op in ops && op.CreateOp? ==> ops == [op] && (e.CreateMessage? || e.HttpCreate?) && op.id == e.id
    ensures forall op :: op in ops && (op.CreateOp? || op.RotateOp?) ==> op.draws == DrawsOf(e)
  {
    hide OnJoin, ApplyAll;
    if e.JoinMessage? {
      ops := JoinIsOps(c, s, e.conn, e.refused, e.code, e.peer, e.secret, e.key, e.draws, now, at);
    } else if Handle(c, limits, s, e, now, at).server.dir == s.dir {
      ops := [];
      NoOps(c, s.dir, now);
    } else {
      hide Handle, Apply, OpOf;
      var op := OpOf(s, e, at);
      HandleIsOp(c, limits, s, e, now, at);
      ApplyOne(c, s.dir, op, now);
      ops := [op];
    }
  }

  lemma {:induction false} OpsKeepIndex(c: Config, d: Directory, ops: seq<Op>, now: Timestamp)
    requires IndexAgrees(d) && forall op :: op in ops && op.CreateOp? ==> ops == [op] && op.id !in d.rooms
    ensures IndexAgrees(ApplyAll(c, d, ops, now))
  {
    if ops != [] {
      hide Apply, IndexAgrees;
      var front, last := ops[..|ops| - 1], ops[|ops| - 1];
      assert last in ops;
      if last.CreateOp? {
        assert front == [];
      }
      OpsKeepIndex(c, d, front, now);
      ApplyKeepsIndex(c, ApplyAll(c, d, front, now), Event(now, last));
    }
  }

  /** Every live room has a code. */
  ghost predicate AllCoded(d: Directory)
  {
    forall id :: id in d.rooms ==> d.rooms[id].code != ""
  }

  /** Generators draw codes, never the empty string. */
  ghost predicate RealDraws(draws: seq<RoomCode>)
  {
    forall i :: 0 <= i < |draws| ==> draws[i] != ""
  }

  lemma {:induction false} FirstUnusedIsReal(index: map<RoomCode, RoomId>, draws: seq<RoomCode>)
    requires RealDraws(draws)
    ensures FirstUnused(index, draws).Some? ==> FirstUnused(index, draws).value != ""
  {
    if draws != [] {
      FirstUnusedIsReal(index, draws[1..]);
    }
  }

  lemma ApplyKeepsCoded(c: Config, d: Directory, e: Event)
    requires AllCoded(d) && (e.op.CreateOp? || e.op.RotateOp? ==> RealDraws(e.op.draws))
    requires e.op.CreateOp? ==> e.op.id !in d.rooms
    ensures AllCoded(Apply(c, d, e))
  {
    if e.op.CreateOp? || e.op.RotateOp? {
      FirstUnusedIsReal(d.index, Attempts(e.op.draws));
    } else {
      forall id | id in Apply(c, d, e).rooms
        ensures Apply(c, d, e).rooms[id].code != ""
      {
        hide Apply;
        RoomAfter(c, d, e, id);
        BecomesKeepsCode(c, d.rooms[id], Apply(c, d, e).rooms[id], e);
      }
    }
  }

  lemma {:induction false} OpsKeepCoded(c: Config, d: Directory, ops: seq<Op>, now: Timestamp)
    requires AllCoded(d) && forall op :: op in ops && (op.CreateOp? || op.RotateOp?) ==> RealDraws(op.draws)
    requires forall op :: op in ops && op.CreateOp? ==> ops == [op] && op.id !in d.rooms
    ensures AllCoded(ApplyAll(c, d, ops, now))
  {
    if ops != [] {
      hide Apply, AllCoded, RealDraws;
      var front, last := ops[..|ops| - 1], ops[|ops| - 1];
      assert last in ops;
      if last.CreateOp? {
        assert front == [];
      }
      OpsKeepCoded(c, d, front, now);
      ApplyKeepsCoded(c, ApplyAll(c, d, front, now), Event(now, last));
    }
  }

  ghost predicate AllDrawsReal(es: seq<Arrival>)
  {
    forall i :: 0 <= i < |es| ==> RealDraws(DrawsOf(es[i].incoming))
  }

  lemma {:induction false} ServedRoomsCoded(c: Config, limits: Limits, es: seq<Arrival>)
    requires FreshRooms(c, limits, es) && AllDrawsReal(es)
    ensures AllCoded(Serve(c, limits, es).dir)
  {
    if es != [] {
      var n := |es| - 1;
      assert forall k :: 0 <= k < n ==> es[..n][..k] == es[..k];
      ServedRoomsCoded(c, limits, es[..n]);
      var s := Serve(c, limits, es[..n]);
      hide Handle, AllCoded, RealDraws;
      var ops := HandleIsOps(c, limits, s, es[n].incoming, es[n].now, es[n].at);
      assert NamesFreshRoom(s, es[n].incoming);
      OpsKeepCoded(c, s.dir, ops, es[n].now);
    }
  }

  /** After any sequence of messages, disconnects, ticks and requests, the code index and the live rooms agree. */
  lemma {:induction false} ServedIndexAgrees(c: Config, limits: Limits, es: seq<Arrival>)
    requires FreshRooms(c, limits, es)
    ensures IndexAgrees(Serve(c, limits, es).dir)
  {
    if es != [] {
      var n := |es| - 1;
      assert forall k :: 0 <= k < n ==> es[..n][..k] == es[..k];
      ServedIndexAgrees(c, limits, es[..n]);
      var s := Serve(c, limits, es[..n]);
      hide Handle, IndexAgrees;
      var ops := HandleIsOps(c, limits, s, es[n].incoming, es[n].now, es[n].at);
      assert NamesFreshRoom(s, es[n].incoming);
      OpsKeepIndex(c, s.dir, ops, es[n].now);
    }
  }

  /** The join named a live hopping room by its code, and was let in. */
  predicate JoinsHopping(c: Config, s: Server, e: Incoming, now: Timestamp, at: Time)
  {
    && e.JoinMessage? && e.code.Some? && e.code.value in s.dir.index && s.dir.index[e.code.value] in s.dir.rooms
    && s.dir.rooms[s.dir.index[e.code.value]].hopping
    && OnJoin(c, s, e.conn, e.refused, e.code, e.peer, e.secret, e.key, e.draws, now, at).replies[0].JoinOk?
  }

  lemma JoinRotates(c: Config, s: Server, e: Incoming, now: Timestamp, at: Time)
    requires JoinsHopping(c, s, e, now, at)
    ensures var id := s.dir.index[e.code.value];
            var joined := Join(c, s.dir, id, e.peer, false, e.secret, now, Some(e.key)).0;
            && joined.index == s.dir.index && id in joined.rooms && joined.rooms[id].code == s.dir.rooms[id].code && joined.rooms[id].hopping
            && OnJoin(c, s, e.conn, e.refused, e.code, e.peer, e.secret, e.key, e.draws, now, at).server.dir == Rotate(joined, id, e.draws, at).0
  {
    hide Rotate, Broadcasted, Sent, Registered, WithMeta;
  }

  /**
   After any run, a join that is let into a hopping room by its code leaves that code leading nowhere, as
   long as one of a thousand draws is unused; the room is then under the first such draw.
   */
  lemma {:induction false} JoinUsesUpCode(c: Config, limits: Limits, es: seq<Arrival>, e: Incoming, now: Timestamp, at: Time)
    requires FreshRooms(c, limits, es) && JoinsHopping(c, Serve(c, limits, es), e, now, at)
    requires !Exhausted(Serve(c, limits, es).dir.index, e.draws)
    ensures var s := Serve(c, limits, es);
            var z := Handle(c, limits, s, e, now, at).server.dir;
            var id := s.dir.index[e.code.value];
            && e.code.value !in z.index && id in z.rooms
            && z.rooms[id].code in z.index && z.index[z.rooms[id].code] == id
            && exists i: nat :: IsFresh(s.dir.index, e.draws, i) && z.rooms[id].code == e.draws[i]
  {
    var s := Serve(c, limits, es);
    ServedIndexAgrees(c, limits, es);
    var id := s.dir.index[e.code.value];
    assert s.dir.rooms[id].code == e.code.value;
    hide IndexAgrees, Serve;
    JoinRotates(c, s, e, now, at);
    hide OnJoin, JoinsHopping;
    var joined := Join(c, s.dir, id, e.peer, false, e.secret, now, Some(e.key)).0;
    hide Join, Rotate;
    RotationRotates(joined, id, e.draws, at);
  }
}
