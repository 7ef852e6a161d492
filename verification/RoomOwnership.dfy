/** Peers and ownership: one owner, succession by seniority, and the count of active rooms per owner. */
module RoomOwnership {
  import opened Basics
  import opened Rooms
  import opened RoomDirectory
  import opened RoomSteps

  /** Peer ids are distinct and peers stand in the order they joined. */
  ghost predicate Orderly(peers: seq<Peer>, now: Timestamp)
  {
    && (forall i, j :: 0 <= i < j < |peers| ==> peers[i].id != peers[j].id)
    && (forall i, j :: 0 <= i < j < |peers| ==> peers[i].joinedAt <= peers[j].joinedAt)
    && (forall i :: 0 <= i < |peers| ==> peers[i].joinedAt <= now)
  }

  /** The peer at position `k` is the owner, nobody else is, and the stored key is that peer's key. */
  ghost predicate OwnedAt(peers: seq<Peer>, key: Option<RateKey>, k: nat)
  {
    k < |peers| && key == peers[k].rateKey && forall j :: 0 <= j < |peers| ==> (peers[j].isOwner <==> j == k)
  }

  ghost predicate Owned(r: Room)
  {
    exists k :: OwnedAt(r.peers, r.ownerRateKey, k)
  }

  ghost predicate Ownerless(r: Room)
  {
    forall j :: 0 <= j < |r.peers| ==> !r.peers[j].isOwner
  }

  ghost predicate BlockedArePeers(r: Room)
  {
    (forall p :: p in r.chatBlocked ==> r.HasPeer(p)) && (forall p :: p in r.fileBlocked ==> r.HasPeer(p))
  }

  ghost predicate WellKept(c: Config, r: Room, now: Timestamp)
  {
    Orderly(r.peers, now) && |r.peers| <= c.maxParticipants && BlockedArePeers(r)
  }

  // What each change of the peer list keeps.

  function Removed(peers: seq<Peer>, i: nat): seq<Peer>
    requires i < |peers|
  {
    peers[..i] + peers[i + 1..]
  }

  lemma RemovedAt(peers: seq<Peer>, i: nat, j: nat)
    requires i < |peers| && j < |peers| - 1
    ensures |Removed(peers, i)| == |peers| - 1
    ensures Removed(peers, i)[j] == peers[if j < i then j else j + 1]
  {
  }

  lemma RemovedOrderly(peers: seq<Peer>, i: nat, now: Timestamp)
    requires Orderly(peers, now) && i < |peers|
    ensures Orderly(Removed(peers, i), now)
  {
  }

  lemma WithoutPeerKept(c: Config, r: Room, peer: PeerId, now: Timestamp)
    requires WellKept(c, r, now) && r.HasPeer(peer)
    ensures WellKept(c, WithoutPeer(r, peer), now)
  {
    var i := Position(r.peers, peer);
    var s := WithoutPeer(r, peer);
    RemovedOrderly(r.peers, i, now);
    assert s.peers == Removed(r.peers, i);
    forall p | r.HasPeer(p) && p != peer
      ensures s.HasPeer(p)
    {
      var j :| 0 <= j < |r.peers| && r.peers[j].id == p;
      RemovedAt(r.peers, i, if j < i then j else j - 1);
    }
  }

  lemma {:induction false} PositionOf(peers: seq<Peer>, k: nat)
    requires k < |peers| && forall i, j :: 0 <= i < j < |peers| ==> peers[i].id != peers[j].id
    ensures Position(peers, peers[k].id) == k
  {
    var i := Position(peers, peers[k].id);
    assert i <= k;
  }

  lemma {:induction false} KeyOfPosition(peers: seq<Peer>, k: nat)
    requires k < |peers| && forall i, j :: 0 <= i < j < |peers| ==> peers[i].id != peers[j].id
    ensures KeyOf(peers, peers[k].id) == peers[k].rateKey
  {
    if k < |peers| - 1 {
      assert peers[|peers| - 1].id != peers[k].id;
      KeyOfPosition(peers[..|peers| - 1], k);
    }
  }

  lemma {:induction false} HasPeerPosition(r: Room, peer: PeerId)
    requires r.HasPeer(peer)
    ensures Position(r.peers, peer) < |r.peers|
  {
    var i :| 0 <= i < |r.peers| && r.peers[i].id == peer;
    assert Position(r.peers, peer) <= i;
  }

  /** Handing ownership to a present peer makes that peer, and only that peer, the owner. */
  lemma {:induction false} WithOwnerOwned(c: Config, r: Room, peer: PeerId, now: Timestamp)
    requires WellKept(c, r, now) && r.HasPeer(peer)
    ensures WellKept(c, WithOwner(r, peer), now)
    ensures OwnedAt(WithOwner(r, peer).peers, WithOwner(r, peer).ownerRateKey, Position(r.peers, peer))
  {
    HasPeerPosition(r, peer);
    var k := Position(r.peers, peer);
    var s := WithOwner(r, peer);
    KeyOfPosition(r.peers, k);
    forall j | 0 <= j < |r.peers|
      ensures s.peers[j] == r.peers[j].(isOwner := j == k)
    {
    }
    forall p | r.HasPeer(p)
      ensures s.HasPeer(p)
    {
      var j :| 0 <= j < |r.peers| && r.peers[j].id == p;
      assert s.peers[j].id == p;
    }
  }

  lemma OwnerLeaves(peers: seq<Peer>, key: Option<RateKey>, k: nat, i: nat) returns (k': nat)
    requires OwnedAt(peers, key, k) && i < |peers| && i != k
    ensures OwnedAt(Removed(peers, i), key, k')
  {
    k' := if i < k then k - 1 else k;
    RemovedAt(peers, i, k');
    forall j | 0 <= j < |peers| - 1
      ensures Removed(peers, i)[j].isOwner <==> j == k'
    {
      RemovedAt(peers, i, j);
    }
  }

  lemma AfterLeaveKept(c: Config, r: Room, peer: PeerId, now: Timestamp)
    requires WellKept(c, r, now) && r.HasPeer(peer) && WithoutPeer(r, peer).peers != []
    ensures WellKept(c, AfterLeave(r, peer), now)
    ensures Owned(r) ==> Owned(AfterLeave(r, peer))
    ensures Ownerless(r) ==> Ownerless(AfterLeave(r, peer))
  {
    HasPeerPosition(r, peer);
    var i := Position(r.peers, peer);
    var rest := WithoutPeer(r, peer);
    WithoutPeerKept(c, r, peer, now);
    assert rest.peers == Removed(r.peers, i);
    if r.peers[i].isOwner {
      assert rest.HasPeer(rest.peers[0].id);
      WithOwnerOwned(c, rest, rest.peers[0].id, now);
    } else if Owned(r) {
      var k :| OwnedAt(r.peers, r.ownerRateKey, k);
      var k' := OwnerLeaves(r.peers, r.ownerRateKey, k, i);
    }
  }

  lemma OwnerIsPermitted(r: Room, peer: PeerId)
    requires r.HasPermission(peer)
    ensures !Ownerless(r)
    ensures forall k: nat :: OwnedAt(r.peers, r.ownerRateKey, k) ==> r.peers[k].id == peer
  {
    FirstOwnerIs(r.peers);
  }

  lemma KickKept(c: Config, r: Room, operator: PeerId, target: PeerId, now: Timestamp)
    requires WellKept(c, r, now) && r.HasPermission(operator) && operator != target && r.HasPeer(target)
    ensures WellKept(c, WithoutPeer(r, target), now)
    ensures Owned(r) ==> Owned(WithoutPeer(r, target))
  {
    WithoutPeerKept(c, r, target, now);
    OwnerIsPermitted(r, operator);
    HasPeerPosition(r, target);
    if Owned(r) {
      var k :| OwnedAt(r.peers, r.ownerRateKey, k);
      var i := Position(r.peers, target);
      var k' := OwnerLeaves(r.peers, r.ownerRateKey, k, i);
      assert WithoutPeer(r, target).peers == Removed(r.peers, i);
    }
  }

  lemma AddPeerKept(c: Config, r: Room, s: Room, peer: PeerId, secret: Option<string>, now: Timestamp, key: Option<RateKey>)
    requires WellKept(c, r, now) && AddPeer(c, r, peer, false, secret, now, key) == Success(s)
    ensures WellKept(c, s, now)
    ensures Owned(r) ==> Owned(s)
    ensures Ownerless(r) ==> Ownerless(s)
  {
    forall p | r.HasPeer(p)
      ensures s.HasPeer(p)
    {
      var j :| 0 <= j < |r.peers| && r.peers[j].id == p;
      assert s.peers[j] == r.peers[j];
    }
    if Owned(r) {
      var k :| OwnedAt(r.peers, r.ownerRateKey, k);
      assert OwnedAt(s.peers, s.ownerRateKey, k);
    }
  }

  /** The peers of `s` are those of `r` up to their mutes. */
  ghost predicate SamePeers(r: Room, s: Room)
  {
    && |s.peers| == |r.peers|
    && s.ownerRateKey == r.ownerRateKey
    && forall j :: 0 <= j < |r.peers| ==>
      s.peers[j] == r.peers[j].(isMuted := s.peers[j].isMuted, mutedUntil := s.peers[j].mutedUntil)
  }

  lemma SamePeersKept(c: Config, r: Room, s: Room, now: Timestamp)
    requires WellKept(c, r, now) && SamePeers(r, s)
    requires forall p :: p in s.chatBlocked ==> p in r.chatBlocked || r.HasPeer(p)
    requires forall p :: p in s.fileBlocked ==> p in r.fileBlocked || r.HasPeer(p)
    ensures WellKept(c, s, now)
    ensures Owned(r) ==> Owned(s)
    ensures Ownerless(r) ==> Ownerless(s)
  {
    forall p | r.HasPeer(p)
      ensures s.HasPeer(p)
    {
      var j :| 0 <= j < |r.peers| && r.peers[j].id == p;
      assert s.peers[j].id == p;
    }
    if Owned(r) {
      var k :| OwnedAt(r.peers, r.ownerRateKey, k);
      assert OwnedAt(s.peers, s.ownerRateKey, k);
    }
  }

  lemma ModeratedSamePeers(r: Room, s: Room, target: PeerId, m: Moderation)
    requires Moderated(r, target, m) == Success(s)
    ensures SamePeers(r, s)
    ensures forall p :: p in s.chatBlocked ==> p in r.chatBlocked || r.HasPeer(p)
    ensures forall p :: p in s.fileBlocked ==> p in r.fileBlocked || r.HasPeer(p)
  {
  }

  lemma SweptSamePeers(c: Config, r: Room, now: Timestamp)
    ensures var s := Swept(c, r, now).0;
            SamePeers(r, s) && s.chatBlocked == r.chatBlocked && s.fileBlocked == r.fileBlocked
  {
    var next := Evaluate(c, r, now).0;
    assert next.peers == r.peers && next.ownerRateKey == r.ownerRateKey;
  }

  lemma OthersSamePeers(c: Config, r: Room, s: Room, e: Event)
    requires Becomes(c, r, s, e)
    requires !e.op.JoinOp? && !e.op.LeaveOp? && !e.op.KickOp? && !e.op.TransferOp?
    ensures SamePeers(r, s)
    ensures forall p :: p in s.chatBlocked ==> p in r.chatBlocked || r.HasPeer(p)
    ensures forall p :: p in s.fileBlocked ==> p in r.fileBlocked || r.HasPeer(p)
  {
    if s != r {
      match e.op
      case ModerateOp(_, _, target, moderation) => ModeratedSamePeers(r, s, target, moderation);
      case TickOp => SweptSamePeers(c, r, e.now);
      case _ =>
    }
  }

  lemma LaterKept(c: Config, r: Room, was: Timestamp, now: Timestamp)
    requires WellKept(c, r, was) && was <= now
    ensures WellKept(c, r, now)
  {
  }

  lemma BecomesKept(c: Config, r: Room, s: Room, e: Event)
    requires WellKept(c, r, e.now) && Becomes(c, r, s, e)
    ensures WellKept(c, s, e.now)
    ensures Owned(r) ==> Owned(s)
    ensures Ownerless(r) ==> Ownerless(s)
  {
    if s != r {
      match e.op
      case JoinOp(_, peer, secret, key) => AddPeerKept(c, r, s, peer, secret, e.now, key);
      case LeaveOp(_, peer) => AfterLeaveKept(c, r, peer, e.now);
      case KickOp(_, operator, target) =>
        KickKept(c, r, operator, target, e.now);
        OwnerIsPermitted(r, operator);
      case TransferOp(_, operator, heir) =>
        WithOwnerOwned(c, r, heir, e.now);
        OwnerIsPermitted(r, operator);
      case _ =>
        OthersSamePeers(c, r, s, e);
        SamePeersKept(c, r, s, e.now);
    }
  }

  /** The ids of the rooms that were created for an owner. */
  function CreatedForOwner(es: seq<Event>): set<RoomId>
  {
    set i | 0 <= i < |es| && es[i].op.CreateOp? && es[i].op.owner.Some? :: es[i].op.id
  }

  ghost predicate AllKept(c: Config, d: Directory, owned: set<RoomId>, now: Timestamp)
  {
    forall id :: id in d.rooms ==>
      && WellKept(c, d.rooms[id], now)
      && (id in owned ==> Owned(d.rooms[id]))
      && (id !in owned ==> Ownerless(d.rooms[id]))
  }

  lemma NewbornKept(c: Config, e: Event, code: RoomCode)
    requires e.op.CreateOp? && c.maxParticipants >= 1
    ensures WellKept(c, Newborn(c, e, code), e.now)
    ensures e.op.owner.Some? ==> Owned(Newborn(c, e, code))
    ensures e.op.owner.None? ==> Ownerless(Newborn(c, e, code))
  {
    var r := Newborn(c, e, code);
    if e.op.owner.Some? {
      assert OwnedAt(r.peers, r.ownerRateKey, 0);
    }
  }

  lemma NextOwners(es: seq<Event>, id: RoomId)
    requires es != [] && Legal(es)
    ensures var e := es[|es| - 1];
            id in CreatedForOwner(es) <==>
              id in CreatedForOwner(es[..|es| - 1]) || (e.op.CreateOp? && e.op.owner.Some? && e.op.id == id)
    ensures var e := es[|es| - 1]; e.op.CreateOp? && e.op.id == id ==> id !in CreatedForOwner(es[..|es| - 1])
  {
    var before := es[..|es| - 1];
    forall i | 0 <= i < |before|
      ensures before[i] == es[i]
    {
    }
  }

  lemma StepKept(c: Config, d: Directory, e: Event, id: RoomId, owned: bool, was: Timestamp)
    requires c.maxParticipants >= 1 && was <= e.now && id in Apply(c, d, e).rooms
    requires id in d.rooms ==>
      WellKept(c, d.rooms[id], was) && (if owned then Owned(d.rooms[id]) else Ownerless(d.rooms[id]))
    requires e.op.CreateOp? ==> e.op.id !in d.rooms
    requires id !in d.rooms && e.op.CreateOp? ==> owned == e.op.owner.Some?
    ensures var r := Apply(c, d, e).rooms[id]; WellKept(c, r, e.now) && if owned then Owned(r) else Ownerless(r)
  {
    RoomAfter(c, d, e, id);
    if id in d.rooms {
      LaterKept(c, d.rooms[id], was, e.now);
      BecomesKept(c, d.rooms[id], Apply(c, d, e).rooms[id], e);
    } else {
      NewbornKept(c, e, Apply(c, d, e).rooms[id].code);
    }
  }

  /**
   After any legal run, in every live room: peer ids are distinct and within capacity, peers stand in
   order of joining, both blocked sets name peers only; a room created for an owner has exactly one
   owner whose key is the stored one, and a room created for nobody has none.
   */
  lemma {:induction false} OwnershipInvariant(c: Config, es: seq<Event>)
    requires Legal(es) && es != [] && c.maxParticipants >= 1
    ensures AllKept(c, Run(c, EMPTY, es), CreatedForOwner(es), Clock(es))
  {
    var n := |es| - 1;
    var d := Run(c, EMPTY, es[..n]);
    LegalPrefix(es, n);
    if n > 0 {
      OwnershipInvariant(c, es[..n]);
    }
    NextIsFresh(c, es);
    var owned := CreatedForOwner(es);
    forall id | id in Apply(c, d, es[n]).rooms
      ensures var r := Apply(c, d, es[n]).rooms[id];
              WellKept(c, r, es[n].now) && if id in owned then Owned(r) else Ownerless(r)
    {
      NextOwners(es, id);
      KeysAfter(c, d, es[n], id);
      StepKept(c, d, es[n], id, id in owned, if n > 0 then Clock(es[..n]) else es[n].now);
    }
  }

  /** `peers[k]` is the owner, and nobody joined before that peer. */
  ghost predicate SeniorOwns(r: Room, heir: PeerId)
  {
    exists k: nat :: OwnedAt(r.peers, r.ownerRateKey, k) && r.peers[k].id == heir
      && forall j :: 0 <= j < |r.peers| ==> r.peers[k].joinedAt <= r.peers[j].joinedAt
  }

  lemma {:induction false} PermittedIsOwner(r: Room, owner: PeerId, now: Timestamp)
    requires Orderly(r.peers, now) && r.HasPermission(owner)
    ensures r.HasPeer(owner) && Position(r.peers, owner) < |r.peers| && r.peers[Position(r.peers, owner)].isOwner
  {
    FirstOwnerIs(r.peers);
    var o :| 0 <= o < |r.peers| && r.peers[o].isOwner && r.peers[o].id == owner;
    assert r.HasPeer(owner);
    PositionOf(r.peers, o);
  }

  lemma {:induction false} FirstInherits(c: Config, rest: Room, now: Timestamp)
    requires WellKept(c, rest, now) && rest.peers != []
    ensures SeniorOwns(WithOwner(rest, rest.peers[0].id), rest.peers[0].id)
  {
    assert rest.HasPeer(rest.peers[0].id);
    WithOwnerOwned(c, rest, rest.peers[0].id, now);
    PositionOf(rest.peers, 0);
    assert OwnedAt(WithOwner(rest, rest.peers[0].id).peers, WithOwner(rest, rest.peers[0].id).ownerRateKey, 0);
  }

  lemma {:induction false} HeirIsSenior(c: Config, r: Room, owner: PeerId, now: Timestamp)
    requires WellKept(c, r, now) && r.HasPermission(owner) && |r.peers| > 1
    ensures r.HasPeer(owner) && r.peers[Position(r.peers, owner)].isOwner && WithoutPeer(r, owner).peers != []
    ensures SeniorOwns(AfterLeave(r, owner), WithoutPeer(r, owner).peers[0].id)
  {
    PermittedIsOwner(r, owner, now);
    WithoutPeerKept(c, r, owner, now);
    FirstInherits(c, WithoutPeer(r, owner), now);
  }

  /** When the owner leaves a room with others in it, the heir is one who has been there longest. */
  lemma {:induction false} SeniorPeerInherits(c: Config, es: seq<Event>, id: RoomId, owner: PeerId)
    requires Legal(es) && es != [] && c.maxParticipants >= 1
    requires id in Run(c, EMPTY, es).rooms && Run(c, EMPTY, es).rooms[id].HasPermission(owner)
    requires |Run(c, EMPTY, es).rooms[id].peers| > 1
    ensures var (after, outcome) := Leave(Run(c, EMPTY, es), id, owner);
            && outcome.Some? && outcome.value.wasOwner && outcome.value.newOwner.Some?
            && id in after.rooms && SeniorOwns(after.rooms[id], outcome.value.newOwner.value)
  {
    OwnershipInvariant(c, es);
    HeirIsSenior(c, Run(c, EMPTY, es).rooms[id], owner, Clock(es));
  }

  /** The active rooms whose present owner has the key. */
  function ActiveWithOwnerKey(d: Directory, key: RateKey, now: Timestamp): set<RoomId>
  {
    set id | id in d.rooms && d.rooms[id].IsActive(now)
             && exists k :: 0 <= k < |d.rooms[id].peers| && d.rooms[id].peers[k].isOwner && d.rooms[id].peers[k].rateKey == Some(key)
  }

  /** A room without an owner keeps its stored key, for only owners pass it on. */
  lemma OwnerlessKeepsKey(c: Config, r: Room, s: Room, e: Event)
    requires WellKept(c, r, e.now) && Ownerless(r) && Becomes(c, r, s, e)
    ensures s.ownerRateKey == r.ownerRateKey
  {
    if s != r {
      match e.op
      case JoinOp(_, peer, secret, key) =>
      case LeaveOp(_, peer) => HasPeerPosition(r, peer);
      case KickOp(_, operator, target) => OwnerIsPermitted(r, operator);
      case TransferOp(_, operator, heir) => OwnerIsPermitted(r, operator);
      case _ => OthersSamePeers(c, r, s, e);
    }
  }

  /** The ids of the rooms that were created with the key but for nobody. */
  function CreatedForNobody(es: seq<Event>, key: RateKey): set<RoomId>
  {
    set i | 0 <= i < |es| && es[i].op.CreateOp? && es[i].op.owner.None? && es[i].op.key == Some(key) :: es[i].op.id
  }

  lemma NextForNobody(es: seq<Event>, key: RateKey, id: RoomId)
    requires es != [] && Legal(es)
    ensures var e := es[|es| - 1];
            id in CreatedForNobody(es, key) <==>
              id in CreatedForNobody(es[..|es| - 1], key)
              || (e.op.CreateOp? && e.op.owner.None? && e.op.key == Some(key) && e.op.id == id)
    ensures var e := es[|es| - 1]; e.op.CreateOp? && e.op.id == id ==> id !in CreatedForNobody(es[..|es| - 1], key)
  {
    var before := es[..|es| - 1];
    forall i | 0 <= i < |before|
      ensures before[i] == es[i]
    {
    }
  }

  /** A live room created for nobody still stores the key it was created with. */
  lemma {:induction false} CreationKeyStays(c: Config, es: seq<Event>, key: RateKey, id: RoomId)
    requires Legal(es) && c.maxParticipants >= 1
    requires id in Run(c, EMPTY, es).rooms && id !in CreatedForOwner(es)
    ensures Run(c, EMPTY, es).rooms[id].ownerRateKey == Some(key) <==> id in CreatedForNobody(es, key)
  {
    var n := |es| - 1;
    var d := Run(c, EMPTY, es[..n]);
    LegalPrefix(es, n);
    NextIsFresh(c, es);
    NextOwners(es, id);
    NextForNobody(es, key, id);
    RoomAfter(c, d, es[n], id);
    if id in d.rooms {
      assert n > 0;
      CreationKeyStays(c, es[..n], key, id);
      OwnershipInvariant(c, es[..n]);
      LaterKept(c, d.rooms[id], Clock(es[..n]), es[n].now);
      OwnerlessKeepsKey(c, d.rooms[id], Apply(c, d, es[n]).rooms[id], es[n]);
    } else {
      LiveWasCreated(c, es[..n]);
      assert id !in CreatedForNobody(es[..n], key);
    }
  }

  /**
   The manager's count is the number of active rooms whose present owner has the key if and only if
   no room that is now active was created with that key but for nobody.
   */
  lemma {:induction false} CountIsByPresentOwner(c: Config, es: seq<Event>, key: RateKey, now: Timestamp)
    requires Legal(es) && es != [] && c.maxParticipants >= 1
    ensures var d := Run(c, EMPTY, es);
            ActiveByOwnerKey(d, key, now) == ActiveWithOwnerKey(d, key, now)
            <==> forall id :: id in CreatedForNobody(es, key) ==> !(id in d.rooms && d.rooms[id].IsActive(now))
  {
    var d := Run(c, EMPTY, es);
    OwnershipInvariant(c, es);
    forall id | id in d.rooms && id in CreatedForOwner(es)
      ensures id in ActiveByOwnerKey(d, key, now) <==> id in ActiveWithOwnerKey(d, key, now)
      ensures id !in CreatedForNobody(es, key)
    {
      var k :| OwnedAt(d.rooms[id].peers, d.rooms[id].ownerRateKey, k);
      CreatedOnce(es, key, id);
    }
    forall id | id in d.rooms && id !in CreatedForOwner(es)
      ensures id !in ActiveWithOwnerKey(d, key, now)
      ensures id in ActiveByOwnerKey(d, key, now) <==> id in CreatedForNobody(es, key) && d.rooms[id].IsActive(now)
    {
      CreationKeyStays(c, es, key, id);
    }
  }

  lemma CreatedOnce(es: seq<Event>, key: RateKey, id: RoomId)
    requires Legal(es)
    ensures !(id in CreatedForOwner(es) && id in CreatedForNobody(es, key))
  {
  }

  /** A room created with a key but for nobody is counted although it has no owner. */
  lemma {:induction false} OwnerlessRoomIsCounted(c: Config, key: RateKey)
    requires c.initialDuration > 0
    ensures var es := [Event(0, CreateOp(0, ["0000-0000-0000"], None, Some(key), Password(false, None), false, None, 0))];
            Legal(es) && |ActiveByOwnerKey(Run(c, EMPTY, es), key, 0)| == 1 && |ActiveWithOwnerKey(Run(c, EMPTY, es), key, 0)| == 0
  {
    var e := Event(0, CreateOp(0, ["0000-0000-0000"], None, Some(key), Password(false, None), false, None, 0));
    var es := [e];
    assert es[..|es| - 1] == [];
    assert Run(c, EMPTY, []) == EMPTY;
    var d := Run(c, EMPTY, es);
    assert d == Apply(c, EMPTY, e);
    assert FirstUnused(map[], ["0000-0000-0000"]) == Some("0000-0000-0000");
    assert ActiveByOwnerKey(d, key, 0) == {0};
    assert ActiveWithOwnerKey(d, key, 0) == {};
  }
}
