/** Whom the server lets do what: how many rooms there can be, who gets one, who gets in, and when a code is due to move. */
module Admission {
  import opened Basics
  import opened Rooms
  import opened RoomDirectory
  import opened RoomSteps
  import opened RoomIndex
  import opened RoomRotation
  import opened Sessions
  import opened Gateway
  import opened Routing
  import opened Service
  import opened RoomPowers

  // The number of rooms.

  lemma {:induction false} NoneCreated(c: Config, d: Directory, ops: seq<Op>, now: Timestamp)
    requires forall op :: op in ops ==> !op.CreateOp?
    ensures ApplyAll(c, d, ops, now).rooms.Keys <= d.rooms.Keys
  {
    if ops != [] {
      hide Apply;
      var front, last := ops[..|ops| - 1], ops[|ops| - 1];
      assert last in ops;
      NoneCreated(c, d, front, now);
      forall id | id in Apply(c, ApplyAll(c, d, front, now), Event(now, last)).rooms
        ensures id in d.rooms
      {
        KeysAfter(c, ApplyAll(c, d, front, now), Event(now, last), id);
      }
    }
  }

  lemma SubsetCardinality(small: set<RoomId>, large: set<RoomId>)
    requires small <= large
    ensures |small| <= |large|
  {
    assert large == small + (large - small);
  }

  lemma CreationAddsOne(c: Config, limits: Limits, s: Server, e: Incoming, now: Timestamp, at: Time)
    requires (e.CreateMessage? || e.HttpCreate?) && Handle(c, limits, s, e, now, at).server.dir != s.dir
    ensures |s.dir.rooms| < limits.maxRooms
    ensures Handle(c, limits, s, e, now, at).server.dir.rooms.Keys == s.dir.rooms.Keys + {e.id}
  {
    hide ActiveByOwnerKey, FirstUnused, NewRoom;
  }

  lemma StepIsBounded(c: Config, limits: Limits, s: Server, e: Incoming, now: Timestamp, at: Time)
    requires |s.dir.rooms| <= limits.maxRooms
    ensures |Handle(c, limits, s, e, now, at).server.dir.rooms| <= limits.maxRooms
  {
    hide Handle, ApplyAll;
    var z := Handle(c, limits, s, e, now, at).server.dir;
    if z != s.dir && (e.CreateMessage? || e.HttpCreate?) {
      CreationAddsOne(c, limits, s, e, now, at);
      SubsetCardinality(z.rooms.Keys, s.dir.rooms.Keys + {e.id});
    } else if z != s.dir {
      var ops := HandleIsOps(c, limits, s, e, now, at);
      NoneCreated(c, s.dir, ops, now);
      SubsetCardinality(z.rooms.Keys, s.dir.rooms.Keys);
    }
  }

  /** However long it runs, the server never holds more rooms than it is configured for. */
  lemma {:induction false} RoomsStayBounded(c: Config, limits: Limits, es: seq<Arrival>)
    ensures |Serve(c, limits, es).dir.rooms| <= limits.maxRooms
  {
    if es != [] {
      var n := |es| - 1;
      hide Handle;
      RoomsStayBounded(c, limits, es[..n]);
      StepIsBounded(c, limits, Serve(c, limits, es[..n]), es[n].incoming, es[n].now, es[n].at);
    }
  }

  // Who gets a room.

  /** The rooms under the client's key that are open and have time left. */
  function OpenUnder(d: Directory, key: RateKey, now: Timestamp): set<RoomId>
  {
    set id | id in d.rooms && d.rooms[id].ownerRateKey == Some(key) && d.rooms[id].state in {Creating, Active, ExtendableWindow}
             && now < d.rooms[id].expiresAt
  }

  lemma OpenIsActive(d: Directory, key: RateKey, now: Timestamp)
    ensures ActiveByOwnerKey(d, key, now) == OpenUnder(d, key, now)
  {
  }

  ghost predicate MayCreate(limits: Limits, s: Server, e: Incoming, now: Timestamp)
    requires e.CreateMessage?
  {
    && e.conn !in s.session && e.conn !in s.registry.connections
    && |s.dir.rooms| < limits.maxRooms && |OpenUnder(s.dir, e.key, now)| < limits.maxRoomsPerOwner
    && !Exhausted(s.dir.index, e.draws)
  }

  /** The socket is given the newborn room, under an unused code, and is the channel to its owner; nothing else changes. */
  ghost predicate RoomGiven(c: Config, s: Server, f: Effect, e: Incoming, now: Timestamp, at: Time)
    requires e.CreateMessage?
  {
    && e.id in f.server.dir.rooms && f.server.dir.rooms[e.id].code !in s.dir.index
    && var r := f.server.dir.rooms[e.id];
    && f.replies == [RoomCreated(r.code, e.peer, now + c.initialDuration)] && f.sent == {}
    && f.server.dir == Directory(s.dir.rooms[e.id := r], s.dir.index[r.code := e.id])
    && IsNewborn(c, r, r.code, Some(e.peer), Some(e.key), e.password, e.hopping, IntervalOf(e), now, at)
    && e.peer in PeersIn(f.server.registry, e.id) && PeersIn(f.server.registry, e.id)[e.peer] == e.conn
  }

  /** Only rooms that hop rotate by themselves, and zero is no interval. */
  function IntervalOf(e: Incoming): Option<nat>
    requires e.CreateMessage?
  {
    if e.hopping && e.interval.Some? && e.interval.value > 0 then e.interval else None
  }

  lemma CreationRefused(c: Config, limits: Limits, s: Server, e: Incoming, now: Timestamp, at: Time)
    requires e.CreateMessage? && !MayCreate(limits, s, e, now)
    ensures var f := Handle(c, limits, s, e, now, at);
            f.server == s && f.sent == {} && |f.replies| == 1 && f.replies[0].ErrorNotice?
  {
    hide ActiveByOwnerKey, OpenUnder, Exhausted, FirstUnused, IsFresh, NewRoom, IsNewborn;
    OpenIsActive(s.dir, e.key, now);
    CreationCreates(c, s.dir, e.id, e.draws, Some(e.peer), Some(e.key), e.password, e.hopping, IntervalOf(e), now, at);
  }

  lemma CreationGranted(c: Config, limits: Limits, s: Server, e: Incoming, now: Timestamp, at: Time)
    requires e.CreateMessage? && MayCreate(limits, s, e, now)
    ensures RoomGiven(c, s, Handle(c, limits, s, e, now, at), e, now, at)
  {
    hide ActiveByOwnerKey, OpenUnder, Exhausted, FirstUnused, IsFresh, NewRoom;
    OpenIsActive(s.dir, e.key, now);
    CreationCreates(c, s.dir, e.id, e.draws, Some(e.peer), Some(e.key), e.password, e.hopping, IntervalOf(e), now, at);
  }

  /** A socket is given a room if and only if it acts for none yet, neither limit is reached, and an unused code is drawn. */
  lemma CreatesIff(c: Config, limits: Limits, s: Server, e: Incoming, now: Timestamp, at: Time)
    requires e.CreateMessage?
    ensures var f := Handle(c, limits, s, e, now, at);
            if MayCreate(limits, s, e, now) then RoomGiven(c, s, f, e, now, at)
            else f.server == s && f.sent == {} && |f.replies| == 1 && f.replies[0].ErrorNotice?
  {
    hide *;
    if MayCreate(limits, s, e, now) {
      CreationGranted(c, limits, s, e, now, at);
    } else {
      CreationRefused(c, limits, s, e, now, at);
    }
  }

  // Who gets in.

  ghost predicate MayJoin(c: Config, s: Server, e: Incoming)
    requires e.JoinMessage?
  {
    && e.conn !in s.session && e.conn !in s.registry.connections && e.refused.None?
    && e.code.Some? && e.code.value in s.dir.index && s.dir.index[e.code.value] in s.dir.rooms
    && var r := s.dir.rooms[s.dir.index[e.code.value]];
    && r.state in {Creating, Active, ExtendableWindow} && !r.isLocked
    && (r.password.required && r.password.hash.Some? ==> e.secret == r.password.hash)
    && |r.peers| < c.maxParticipants && !Present(r, e.peer)
  }

  /**
   A socket is let into a room if and only if it acts for none yet, the limiter has let it pass, its code
   leads to a live room, and the room takes it in; it is then the channel to its peer. Otherwise nothing changes.
   */
  lemma JoinsIff(c: Config, limits: Limits, s: Server, e: Incoming, now: Timestamp, at: Time)
    requires e.JoinMessage?
    ensures var f := Handle(c, limits, s, e, now, at);
            if !MayJoin(c, s, e) then f.server == s && f.sent == {} && |f.replies| == 1 && f.replies[0].ErrorNotice?
            else
              var id := s.dir.index[e.code.value];
              var r := s.dir.rooms[id];
              && f.replies == [JoinOk(if r.hopping then "" else e.code.value, e.peer, r.OwnerPeerId(), r.expiresAt, PeerIds(r.peers))]
              && id in f.server.dir.rooms && Present(f.server.dir.rooms[id], e.peer)
              && e.peer in PeersIn(f.server.registry, id) && PeersIn(f.server.registry, id)[e.peer] == e.conn
  {
    if e.code.Some? && e.code.value in s.dir.index && s.dir.index[e.code.value] in s.dir.rooms {
      var id := s.dir.index[e.code.value];
      var r := s.dir.rooms[id];
      PresentIs(r, e.peer);
      var joined := Join(c, s.dir, id, e.peer, false, e.secret, now, Some(e.key)).0;
      if MayJoin(c, s, e) {
        assert Sits(joined.rooms[id], |r.peers|, e.peer);
        assert Rotate(joined, id, e.draws, at).0.rooms[id].peers == joined.rooms[id].peers;
        assert forall z: Room :: z.peers == joined.rooms[id].peers ==> Sits(z, |r.peers|, e.peer);
      }
      hide Broadcasted, Sent, FirstOwner, FirstUnused;
    }
  }

  // When a code moves by itself, and where a relayed message goes.

  lemma AutoRotatesIff(s: Server, id: RoomId, draws: seq<RoomCode>, at: Time)
    requires id in s.dir.rooms && s.dir.rooms[id].code in s.dir.index
    ensures var r, z := s.dir.rooms[id], OnAutoRotate(s, id, draws, at).server;
            && id in z.dir.rooms
            && (z.dir.rooms[id].code != r.code <==>
                  && r.hopping && r.autoRotate.Some? && r.autoRotate.value > 0 && r.lastRotation + r.autoRotate.value * SECOND <= at
                  && r.OwnerPeerId().Some? && !Exhausted(s.dir.index, draws))
            && (z.dir.rooms[id].code == r.code ==> z == s)
  {
    hide FirstOwner, FirstUnused, Exhausted;
    RotationRotates(s.dir, id, draws, at);
  }

  /**
   After any run the periodic rotation moves a room to another code if and only if the room hops, has an
   interval that has run out since its last rotation, has an owner to be told, and an unused code is drawn.
   */
  lemma {:induction false} RotatesWhenDue(c: Config, limits: Limits, es: seq<Arrival>, id: RoomId, draws: seq<RoomCode>, now: Timestamp, at: Time)
    requires FreshRooms(c, limits, es) && id in Serve(c, limits, es).dir.rooms
    ensures var s := Serve(c, limits, es);
            var r := s.dir.rooms[id];
            var z := Handle(c, limits, s, AutoRotation(id, draws), now, at).server;
            && id in z.dir.rooms
            && (z.dir.rooms[id].code != r.code <==>
                  && r.hopping && r.autoRotate.Some? && r.autoRotate.value > 0 && r.lastRotation + r.autoRotate.value * SECOND <= at
                  && (exists k :: 0 <= k < |r.peers| && r.peers[k].isOwner) && !Exhausted(s.dir.index, draws))
            && (z.dir.rooms[id].code == r.code ==> z == s)
  {
    hide FirstOwner, OnAutoRotate, FreshRooms, Serve;
    var s := Serve(c, limits, es);
    ServedIndexAgrees(c, limits, es);
    assert s.dir.rooms[id].code in s.dir.index;
    hide IndexAgrees;
    FirstOwnerIs(s.dir.rooms[id].peers);
    AutoRotatesIff(s, id, draws, at);
  }

  /** A relayed message reaches the target's channel in the sender's own room, under the sender's name, or nobody. */
  lemma RelaysToTarget(c: Config, limits: Limits, s: Server, conn: Connection, target: PeerId, now: Timestamp, at: Time)
    requires conn in s.session
    ensures var f := Handle(c, limits, s, RelayMessage(conn, target), now, at);
            var (id, sender) := s.session[conn];
            && f.server == s
            && f.sent == (if target in PeersIn(s.registry, id)
                          then {Delivery(id, target, PeersIn(s.registry, id)[target], Relayed(sender))} else {})
            && (f.replies == [] <==> target in PeersIn(s.registry, id))
  {
  }
}
