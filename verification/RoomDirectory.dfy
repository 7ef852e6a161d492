/**
 All rooms of the server and the index of their public codes, as a value, and what each
 operation of the manager does to it when it runs alone.
 */
module RoomDirectory {
  import opened Basics
  import opened Rooms

  datatype Directory = Directory(rooms: map<RoomId, Room>, index: map<RoomCode, RoomId>)

  datatype LeaveOutcome = LeaveOutcome(wasOwner: bool, newOwner: Option<PeerId>, destroyed: bool, code: RoomCode)

  const EMPTY := Directory(map[], map[])

  const MAX_ATTEMPTS: nat := 1000

  /** The generator looks at no more than `MAX_ATTEMPTS` of its draws. */
  function Attempts(draws: seq<RoomCode>): seq<RoomCode>
  {
    if |draws| <= MAX_ATTEMPTS then draws else draws[..MAX_ATTEMPTS]
  }

  /** The first drawn code that the index does not hold; `draws` are the candidates of the generator. */
  function FirstUnused(index: map<RoomCode, RoomId>, draws: seq<RoomCode>): (code: Option<RoomCode>)
    ensures code.Some? ==> code.value !in index
  {
    if draws == [] then None
    else if draws[0] !in index then Some(draws[0])
    else FirstUnused(index, draws[1..])
  }

  function Put(d: Directory, id: RoomId, r: Room): Directory
  {
    d.(rooms := d.rooms[id := r])
  }

  function Drop(d: Directory, id: RoomId, code: RoomCode): Directory
  {
    Directory(d.rooms - {id}, d.index - {code})
  }

  lemma DropPut(d: Directory, id: RoomId, r: Room, code: RoomCode)
    ensures Drop(Put(d, id, r), id, code) == Drop(d, id, code)
  {
    assert Put(d, id, r).rooms - {id} == d.rooms - {id};
  }

  function Create(c: Config, d: Directory, id: RoomId, draws: seq<RoomCode>, owner: Option<PeerId>, key: Option<RateKey>,
                  password: Password, hopping: bool, autoRotate: Option<nat>, now: Timestamp, at: Time)
    : (Directory, Option<RoomCode>)
  {
    var code := FirstUnused(d.index, Attempts(draws));
    if code.None? then (d, None) else
      (Directory(d.rooms[id := NewRoom(c, id, code.value, owner, key, password, now, hopping, autoRotate, at)],
                 d.index[code.value := id]), code)
  }

  function Rotate(d: Directory, id: RoomId, draws: seq<RoomCode>, at: Time): (Directory, Result<RoomCode, RoomError>)
  {
    if id !in d.rooms then (d, Failure(PeerNotFound(""))) else
      var r := d.rooms[id];
      if !r.hopping then (d, Success(r.code)) else
        var code := FirstUnused(d.index, Attempts(draws));
        if code.None? then (d, Failure(RoomTerminated)) else
          (Directory(d.rooms[id := r.(code := code.value, lastRotation := at)], d.index[code.value := id] - {r.code}),
           Success(code.value))
  }

  /** The outcome of an operation on one room that either yields a new state of it or an error. */
  function Settle(d: Directory, id: RoomId, result: Result<Room, RoomError>): (Directory, Option<RoomError>)
  {
    match result
    case Success(r) => (Put(d, id, r), None)
    case Failure(e) => (d, Some(e))
  }

  function Join(c: Config, d: Directory, id: RoomId, peer: PeerId, isOwner: bool, password: Option<string>,
                now: Timestamp, key: Option<RateKey>): (Directory, Option<RoomError>)
  {
    if id !in d.rooms then (d, Some(PeerNotFound(peer)))
    else Settle(d, id, AddPeer(c, d.rooms[id], peer, isOwner, password, now, key))
  }

  /** The room after a peer left it and others remain: a departing owner hands over to the first of them. */
  function AfterLeave(r: Room, peer: PeerId): Room
    requires r.HasPeer(peer) && WithoutPeer(r, peer).peers != []
  {
    var rest := WithoutPeer(r, peer);
    if r.peers[Position(r.peers, peer)].isOwner then WithOwner(rest, rest.peers[0].id) else rest
  }

  function Leave(d: Directory, id: RoomId, peer: PeerId): (Directory, Option<LeaveOutcome>)
  {
    if id !in d.rooms || !d.rooms[id].HasPeer(peer) then (d, None) else
      var r := d.rooms[id];
      var wasOwner := r.peers[Position(r.peers, peer)].isOwner;
      var rest := WithoutPeer(r, peer);
      if rest.peers == [] then
        (Drop(d, id, r.code), Some(LeaveOutcome(wasOwner, None, true, r.code)))
      else
        (Put(d, id, AfterLeave(r, peer)),
         Some(LeaveOutcome(wasOwner, if wasOwner then Some(rest.peers[0].id) else None, false, r.code)))
  }

  function Kick(d: Directory, id: RoomId, operator: PeerId, target: PeerId): (Directory, Result<Option<RateKey>, RoomError>)
  {
    if id !in d.rooms then (d, Failure(PeerNotFound(target))) else
      var r := d.rooms[id];
      if !r.HasPermission(operator) || operator == target then (d, Failure(Unauthorized))
      else if !r.HasPeer(target) then (d, Failure(PeerNotFound(target)))
      else (Put(d, id, WithoutPeer(r, target)), Success(r.peers[Position(r.peers, target)].rateKey))
  }

  function Transfer(d: Directory, id: RoomId, operator: PeerId, heir: PeerId): (Directory, Result<RoomCode, RoomError>)
  {
    if id !in d.rooms then (d, Failure(PeerNotFound(heir))) else
      var r := d.rooms[id];
      if !r.HasPermission(operator) || operator == heir then (d, Failure(Unauthorized))
      else if !r.HasPeer(heir) then (d, Failure(PeerNotFound(heir)))
      else (Put(d, id, WithOwner(r, heir)), Success(r.code))
  }

  function Detonate(d: Directory, id: RoomId, operator: PeerId): (Directory, Option<RoomError>)
  {
    if id !in d.rooms then (d, Some(PeerNotFound(operator)))
    else if !d.rooms[id].HasPermission(operator) then (d, Some(Unauthorized))
    else (Drop(d, id, d.rooms[id].code), None)
  }

  function ExtendRoom(c: Config, d: Directory, id: RoomId, peer: PeerId): (Directory, Option<RoomError>)
  {
    if id !in d.rooms then (d, Some(PeerNotFound(peer))) else Settle(d, id, Extend(c, d.rooms[id], peer))
  }

  function CloseRoom(c: Config, d: Directory, id: RoomId, peer: PeerId, now: Timestamp): (Directory, Option<RoomError>)
  {
    if id !in d.rooms then (d, Some(PeerNotFound(peer))) else Settle(d, id, Close(c, d.rooms[id], peer, now))
  }

  function RekeyRoom(d: Directory, id: RoomId, peer: PeerId, password: string): (Directory, Option<RoomError>)
  {
    if id !in d.rooms then (d, Some(PeerNotFound(peer))) else Settle(d, id, Rekey(d.rooms[id], peer, password))
  }

  function LockRoom(d: Directory, id: RoomId, operator: PeerId, locked: bool): (Directory, Option<RoomError>)
  {
    if id !in d.rooms then (d, Some(PeerNotFound(operator)))
    else if !d.rooms[id].HasPermission(operator) then (d, Some(Unauthorized))
    else (Put(d, id, d.rooms[id].(isLocked := locked)), None)
  }

  /** What the owner can do to another peer's standing. */
  datatype Moderation = BlockChat(blocked: bool) | BlockFiles(blocked: bool) | Mute(until: Option<Timestamp>) | Unmute

  function Moderated(r: Room, target: PeerId, m: Moderation): Result<Room, RoomError>
  {
    match m
    case BlockChat(blocked) => SetChatBlocked(r, target, blocked)
    case BlockFiles(blocked) => SetFileBlocked(r, target, blocked)
    case Mute(until) => SetMute(r, target, true, until)
    case Unmute => SetMute(r, target, false, None)
  }

  function Moderate(d: Directory, id: RoomId, operator: PeerId, target: PeerId, m: Moderation): (Directory, Option<RoomError>)
  {
    if id !in d.rooms then (d, Some(PeerNotFound(if m.Mute? || m.Unmute? then target else operator)))
    else if !d.rooms[id].HasPermission(operator) then (d, Some(Unauthorized))
    else Settle(d, id, Moderated(d.rooms[id], target, m))
  }

  /** What a tick does to one room: the lifecycle is evaluated, then expired mutes are lifted. */
  function Swept(c: Config, r: Room, now: Timestamp): (Room, LifecycleAction)
  {
    var (next, action) := Evaluate(c, r, now);
    (ExpireMutes(next, now), action)
  }

  predicate Dies(c: Config, r: Room, now: Timestamp)
  {
    Swept(c, r, now).1.Destroy?
  }

  function Tick(c: Config, d: Directory, now: Timestamp): Directory
  {
    Directory(map id | id in d.rooms && !Dies(c, d.rooms[id], now) :: Swept(c, d.rooms[id], now).0,
              d.index - (set id | id in d.rooms && Dies(c, d.rooms[id], now) :: d.rooms[id].code))
  }

  /** A tick that has swept all rooms but those in `todo` and noted their actions. */
  ghost predicate IsSweep(c: Config, was: Directory, current: Directory, todo: set<RoomId>,
                          actions: map<RoomId, LifecycleAction>, now: Timestamp)
  {
    && current.index == was.index
    && current.rooms.Keys == was.rooms.Keys
    && todo <= was.rooms.Keys
    && actions.Keys == was.rooms.Keys - todo
    && (forall id :: id in todo ==> current.rooms[id] == was.rooms[id])
    && (forall id :: id in actions ==> (current.rooms[id], actions[id]) == Swept(c, was.rooms[id], now))
  }

  lemma SweepStep(c: Config, was: Directory, current: Directory, todo: set<RoomId>,
                  actions: map<RoomId, LifecycleAction>, now: Timestamp, id: RoomId)
    requires IsSweep(c, was, current, todo, actions, now) && id in todo
    ensures var (r, action) := Swept(c, current.rooms[id], now);
            IsSweep(c, was, Put(current, id, r), todo - {id}, actions[id := action], now)
  {
  }

  function Purged(d: Directory, actions: map<RoomId, LifecycleAction>): Directory
    requires actions.Keys == d.rooms.Keys
  {
    Directory(map id | id in d.rooms && !actions[id].Destroy? :: d.rooms[id],
              d.index - (set id | id in d.rooms && actions[id].Destroy? :: d.rooms[id].code))
  }

  /** Sweeping never changes a code. */
  lemma SweepKeepsCode(c: Config, r: Room, now: Timestamp)
    ensures Swept(c, r, now).0.code == r.code
  {
  }

  lemma SweepThenPurge(c: Config, was: Directory, swept: Directory, actions: map<RoomId, LifecycleAction>, now: Timestamp)
    requires IsSweep(c, was, swept, {}, actions, now)
    ensures Purged(swept, actions) == Tick(c, was, now)
  {
    forall id | id in was.rooms
      ensures swept.rooms[id] == Swept(c, was.rooms[id], now).0
      ensures actions[id].Destroy? == Dies(c, was.rooms[id], now)
      ensures swept.rooms[id].code == was.rooms[id].code
    {
      SweepKeepsCode(c, was.rooms[id], now);
      assert id in actions;
    }
    assert Purged(swept, actions).rooms == Tick(c, was, now).rooms;
    assert (set id | id in swept.rooms && actions[id].Destroy? :: swept.rooms[id].code)
        == (set id | id in was.rooms && Dies(c, was.rooms[id], now) :: was.rooms[id].code);
  }

  /** The active rooms whose stored owner key is `key`. */
  function ActiveByOwnerKey(d: Directory, key: RateKey, now: Timestamp): set<RoomId>
  {
    set id | id in d.rooms && d.rooms[id].ownerRateKey == Some(key) && d.rooms[id].IsActive(now)
  }

  // Runs.

  datatype Op =
    | CreateOp(id: RoomId, draws: seq<RoomCode>, owner: Option<PeerId>, key: Option<RateKey>, password: Password,
               hopping: bool, autoRotate: Option<nat>, at: Time)
    | RotateOp(id: RoomId, draws: seq<RoomCode>, at: Time)
    | JoinOp(id: RoomId, peer: PeerId, secret: Option<string>, key: Option<RateKey>)
    | LeaveOp(id: RoomId, peer: PeerId)
    | KickOp(id: RoomId, operator: PeerId, target: PeerId)
    | TransferOp(id: RoomId, operator: PeerId, target: PeerId)
    | ExtendOp(id: RoomId, peer: PeerId)
    | CloseOp(id: RoomId, peer: PeerId)
    | DetonateOp(id: RoomId, operator: PeerId)
    | RekeyOp(id: RoomId, peer: PeerId, newSecret: string)
    | LockOp(id: RoomId, operator: PeerId, locked: bool)
    | ModerateOp(id: RoomId, operator: PeerId, target: PeerId, moderation: Moderation)
    | TickOp

  datatype Event = Event(now: Timestamp, op: Op)

  /** Peers join without the owner flag, as the networked caller has it. */
  function Apply(c: Config, d: Directory, e: Event): Directory
  {
    match e.op
    case CreateOp(id, draws, owner, key, password, hopping, autoRotate, at) =>
      Create(c, d, id, draws, owner, key, password, hopping, autoRotate, e.now, at).0
    case RotateOp(id, draws, at) => Rotate(d, id, draws, at).0
    case JoinOp(id, peer, secret, key) => Join(c, d, id, peer, false, secret, e.now, key).0
    case LeaveOp(id, peer) => Leave(d, id, peer).0
    case KickOp(id, operator, target) => Kick(d, id, operator, target).0
    case TransferOp(id, operator, target) => Transfer(d, id, operator, target).0
    case ExtendOp(id, peer) => ExtendRoom(c, d, id, peer).0
    case CloseOp(id, peer) => CloseRoom(c, d, id, peer, e.now).0
    case DetonateOp(id, operator) => Detonate(d, id, operator).0
    case RekeyOp(id, peer, secret) => RekeyRoom(d, id, peer, secret).0
    case LockOp(id, operator, locked) => LockRoom(d, id, operator, locked).0
    case ModerateOp(id, operator, target, moderation) => Moderate(d, id, operator, target, moderation).0
    case TickOp => Tick(c, d, e.now)
  }

  function Run(c: Config, d: Directory, es: seq<Event>): Directory
  {
    if es == [] then d else Apply(c, Run(c, d, es[..|es| - 1]), es[|es| - 1])
  }
}
