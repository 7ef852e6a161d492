/**
 One room: its peers, its owner, and the one-way lifecycle
 Creating -> Active <-> ExtendableWindow -> Closing -> Destroyed.
 `Room` is a snapshot of the state; the functions say what each operation does to it, and the
 class `RoomState` carries the operations out in place.
 */
module Rooms {
  import opened Basics

  type RoomId = nat
  type RoomCode = string
  type PeerId = string

  /** Wall-clock seconds. */
  type Timestamp = int

  datatype Config = Config(
    maxParticipants: nat,
    initialDuration: int,
    extendableThreshold: int,
    extensionDuration: int,
    closingGrace: int)

  datatype Lifecycle = Creating | Active | ExtendableWindow | Closing | Destroyed

  datatype Peer = Peer(
    id: PeerId,
    isOwner: bool,
    joinedAt: Timestamp,
    rateKey: Option<RateKey>,
    isMuted: bool,
    mutedUntil: Option<Timestamp>)

  datatype Password = Password(required: bool, hash: Option<string>)

  datatype RoomError =
    | RoomFull(max: nat)
    | PeerAlreadyExists(peer: PeerId)
    | PeerNotFound(peer: PeerId)
    | Unauthorized
    | InvalidPassword
    | RoomTerminated
    | NotInExtendableWindow
    | RoomLocked

  datatype LifecycleAction = NoAction | StateChanged(state: Lifecycle) | Destroy

  datatype Room = Room(
    id: RoomId,
    code: RoomCode,
    state: Lifecycle,
    peers: seq<Peer>,
    password: Password,
    createdAt: Timestamp,
    expiresAt: Timestamp,
    closingDeadline: Option<Timestamp>,
    extensionCount: nat,
    ownerRateKey: Option<RateKey>,
    isLocked: bool,
    hopping: bool,
    autoRotate: Option<nat>,
    lastRotation: Time,
    chatBlocked: set<PeerId>,
    fileBlocked: set<PeerId>)
  {
    predicate Terminated() {
      state.Closing? || state.Destroyed?
    }

    predicate HasPeer(peer: PeerId) {
      exists i :: 0 <= i < |peers| && peers[i].id == peer
    }

    predicate IsOwner(peer: PeerId) {
      exists i :: 0 <= i < |peers| && peers[i].id == peer && peers[i].isOwner
    }

    /** The first peer with the owner flag. */
    function OwnerPeerId(): Option<PeerId> {
      FirstOwner(peers)
    }

    /** Every administrative permission belongs to the owner and to nobody else. */
    predicate HasPermission(peer: PeerId) {
      OwnerPeerId() == Some(peer)
    }

    predicate IsActive(now: Timestamp) {
      !state.Destroyed? && !state.Closing? && now < expiresAt
    }
  }

  function FirstOwner(peers: seq<Peer>): Option<PeerId>
  {
    if peers == [] then None
    else if peers[0].isOwner then Some(peers[0].id)
    else FirstOwner(peers[1..])
  }

  /** The position of the first peer with that id, or the number of peers. */
  function Position(peers: seq<Peer>, peer: PeerId): (i: nat)
    ensures i <= |peers|
    ensures i < |peers| ==> peers[i].id == peer
    ensures forall j :: 0 <= j < i ==> peers[j].id != peer
  {
    if peers == [] || peers[0].id == peer then 0 else 1 + Position(peers[1..], peer)
  }

  function NewRoom(c: Config, id: RoomId, code: RoomCode, owner: Option<PeerId>, ownerKey: Option<RateKey>,
                   password: Password, now: Timestamp, hopping: bool, autoRotate: Option<nat>, at: Time): Room
  {
    Room(id, code, Creating,
         if owner.Some? then [Peer(owner.value, true, now, ownerKey, false, None)] else [],
         password, now, now + c.initialDuration, None, 0, ownerKey, false, hopping, autoRotate, at, {}, {})
  }

  function VerifyPassword(r: Room, password: Option<string>): bool
  {
    r.password.required ==> r.password.hash.Some? ==> password == r.password.hash
  }

  function AddPeer(c: Config, r: Room, peer: PeerId, isOwner: bool, password: Option<string>, now: Timestamp,
                   key: Option<RateKey>): Result<Room, RoomError>
  {
    if !isOwner && !VerifyPassword(r, password) then Failure(InvalidPassword)
    else if r.Terminated() then Failure(RoomTerminated)
    else if r.isLocked then Failure(RoomLocked)
    else if |r.peers| >= c.maxParticipants then Failure(RoomFull(c.maxParticipants))
    else if r.HasPeer(peer) then Failure(PeerAlreadyExists(peer))
    else Success(r.(peers := r.peers + [Peer(peer, isOwner, now, key, false, None)],
                    ownerRateKey := if isOwner then key else r.ownerRateKey,
                    state := if r.state.Creating? then Active else r.state))
  }

  function WithoutPeer(r: Room, peer: PeerId): Room
    requires r.HasPeer(peer)
  {
    var i := Position(r.peers, peer);
    r.(peers := r.peers[..i] + r.peers[i + 1..], chatBlocked := r.chatBlocked - {peer}, fileBlocked := r.fileBlocked - {peer})
  }

  function Flagged(peers: seq<Peer>, owner: PeerId): (s: seq<Peer>)
    ensures |s| == |peers|
  {
    seq(|peers|, i requires 0 <= i < |peers| => peers[i].(isOwner := peers[i].id == owner))
  }

  /** The rate key of the last peer with that id. */
  function KeyOf(peers: seq<Peer>, peer: PeerId): Option<RateKey>
  {
    if peers == [] then None
    else if peers[|peers| - 1].id == peer then peers[|peers| - 1].rateKey
    else KeyOf(peers[..|peers| - 1], peer)
  }

  /** Flagging one peer more. */
  lemma {:induction false} FlaggedNext(was: seq<Peer>, current: seq<Peer>, i: nat, peer: PeerId)
    requires i < |was| == |current| && current[..i] == Flagged(was[..i], peer) && current[i..] == was[i..]
    ensures current[i] == was[i]
    ensures var next := current[i := was[i].(isOwner := was[i].id == peer)];
            next[..i + 1] == Flagged(was[..i + 1], peer) && next[i + 1..] == was[i + 1..]
    ensures KeyOf(was[..i + 1], peer) == if was[i].id == peer then was[i].rateKey else KeyOf(was[..i], peer)
  {
    assert was[..i + 1][..i] == was[..i];
    var next := current[i := was[i].(isOwner := was[i].id == peer)];
    assert next[..i + 1] == current[..i] + [next[i]];
    assert Flagged(was[..i + 1], peer) == Flagged(was[..i], peer) + [next[i]];
    assert next[i + 1..] == current[i..][1..];
  }

  function WithOwner(r: Room, peer: PeerId): Room
  {
    r.(peers := Flagged(r.peers, peer), ownerRateKey := if r.HasPeer(peer) then KeyOf(r.peers, peer) else r.ownerRateKey)
  }

  function StartClosing(c: Config, r: Room, now: Timestamp): Room
  {
    r.(state := Closing, closingDeadline := Some(now + c.closingGrace))
  }

  function Evaluate(c: Config, r: Room, now: Timestamp): (Room, LifecycleAction)
  {
    if r.peers == [] && !r.state.Creating? then (r.(state := Destroyed), Destroy) else
      match r.state
      case Closing =>
        if r.closingDeadline.Some? && now >= r.closingDeadline.value then (r.(state := Destroyed), Destroy) else (r, NoAction)
      case Destroyed => (r, Destroy)
      case Creating | Active =>
        if now >= r.expiresAt then (StartClosing(c, r, now), StateChanged(Closing))
        else if r.expiresAt - now <= c.extendableThreshold then (r.(state := ExtendableWindow), StateChanged(ExtendableWindow))
        else (r, NoAction)
      case ExtendableWindow =>
        if now >= r.expiresAt then (StartClosing(c, r, now), StateChanged(Closing)) else (r, NoAction)
  }

  function Extend(c: Config, r: Room, peer: PeerId): Result<Room, RoomError>
  {
    if !r.IsOwner(peer) then Failure(Unauthorized)
    else if !r.state.ExtendableWindow? then Failure(NotInExtendableWindow)
    else Success(r.(expiresAt := r.expiresAt + c.extensionDuration, extensionCount := r.extensionCount + 1, state := Active))
  }

  function Close(c: Config, r: Room, peer: PeerId, now: Timestamp): Result<Room, RoomError>
  {
    if !r.IsOwner(peer) then Failure(Unauthorized)
    else if r.Terminated() then Failure(RoomTerminated)
    else Success(StartClosing(c, r, now))
  }

  function Rekey(r: Room, peer: PeerId, password: string): Result<Room, RoomError>
  {
    if !r.HasPermission(peer) then Failure(Unauthorized)
    else if r.Terminated() then Failure(RoomTerminated)
    else Success(r.(password := Password(true, Some(password))))
  }

  function SetChatBlocked(r: Room, peer: PeerId, blocked: bool): Result<Room, RoomError>
  {
    if !r.HasPeer(peer) then Failure(PeerNotFound(peer))
    else Success(r.(chatBlocked := if blocked then r.chatBlocked + {peer} else r.chatBlocked - {peer}))
  }

  function SetFileBlocked(r: Room, peer: PeerId, blocked: bool): Result<Room, RoomError>
  {
    if !r.HasPeer(peer) then Failure(PeerNotFound(peer))
    else Success(r.(fileBlocked := if blocked then r.fileBlocked + {peer} else r.fileBlocked - {peer}))
  }

  function SetMute(r: Room, peer: PeerId, muted: bool, until: Option<Timestamp>): Result<Room, RoomError>
  {
    if !r.HasPeer(peer) then Failure(PeerNotFound(peer)) else
      var i := Position(r.peers, peer);
      Success(r.(peers := r.peers[i := r.peers[i].(isMuted := muted, mutedUntil := until)]))
  }

  predicate MuteOver(p: Peer, now: Timestamp)
  {
    p.isMuted && p.mutedUntil.Some? && now >= p.mutedUntil.value
  }

  function Unmuted(peers: seq<Peer>, now: Timestamp): (s: seq<Peer>)
    ensures |s| == |peers|
  {
    seq(|peers|, i requires 0 <= i < |peers| =>
      if MuteOver(peers[i], now) then peers[i].(isMuted := false, mutedUntil := None) else peers[i])
  }

  function ExpireMutes(r: Room, now: Timestamp): Room
  {
    r.(peers := Unmuted(r.peers, now))
  }

  lemma {:induction false} FirstOwnerIs(peers: seq<Peer>)
    ensures FirstOwner(peers).None? ==> forall i :: 0 <= i < |peers| ==> !peers[i].isOwner
    ensures FirstOwner(peers).Some? ==> exists i :: 0 <= i < |peers| && peers[i].isOwner && peers[i].id == FirstOwner(peers).value
  {
    if peers != [] && !peers[0].isOwner {
      FirstOwnerIs(peers[1..]);
    }
  }

  class RoomState {
    const id: RoomId
    var code: RoomCode
    var state: Lifecycle
    var peers: seq<Peer>
    var password: Password
    const createdAt: Timestamp
    var expiresAt: Timestamp
    var closingDeadline: Option<Timestamp>
    var extensionCount: nat
    var ownerRateKey: Option<RateKey>
    var isLocked: bool
    const hopping: bool
    const autoRotate: Option<nat>
    var lastRotation: Time
    var chatBlocked: set<PeerId>
    var fileBlocked: set<PeerId>

    function Value(): Room
      reads this
    {
      Room(id, code, state, peers, password, createdAt, expiresAt, closingDeadline, extensionCount, ownerRateKey,
           isLocked, hopping, autoRotate, lastRotation, chatBlocked, fileBlocked)
    }

    constructor WithHopping(c: Config, id: RoomId, code: RoomCode, owner: Option<PeerId>, ownerKey: Option<RateKey>,
                            password: Password, now: Timestamp, hopping: bool, autoRotate: Option<nat>, at: Time)
      ensures Value() == NewRoom(c, id, code, owner, ownerKey, password, now, hopping, autoRotate, at)
    {
      this.id, this.code, this.password := id, code, password;
      state := Creating;
      peers := match owner
        case Some(peer) => [Peer(peer, true, now, ownerKey, false, None)]
        case None => [];
      createdAt, expiresAt := now, now + c.initialDuration;
      closingDeadline, extensionCount, ownerRateKey := None, 0, ownerKey;
      isLocked := false;
      this.hopping, this.autoRotate, lastRotation := hopping, autoRotate, at;
      chatBlocked, fileBlocked := {}, {};
    }

    method AddPeerWithPassword(c: Config, peer: PeerId, isOwner: bool, password: Option<string>, now: Timestamp,
                               key: Option<RateKey>) returns (error: Option<RoomError>)
      modifies this
      ensures match AddPeer(c, old(Value()), peer, isOwner, password, now, key)
        case Success(r) => error.None? && Value() == r
        case Failure(e) => error == Some(e) && Value() == old(Value())
    {
      if !isOwner && !VerifyPassword(Value(), password) {
        return Some(InvalidPassword);
      }
      if state == Closing || state == Destroyed {
        return Some(RoomTerminated);
      }
      if isLocked {
        return Some(RoomLocked);
      }
      if |peers| >= c.maxParticipants {
        return Some(RoomFull(c.maxParticipants));
      }
      if exists i :: 0 <= i < |peers| && peers[i].id == peer {
        return Some(PeerAlreadyExists(peer));
      }
      peers := peers + [Peer(peer, isOwner, now, key, false, None)];
      if isOwner {
        ownerRateKey := key;
      }
      if state == Creating {
        state := Active;
      }
      return None;
    }

    method RemovePeer(peer: PeerId) returns (removed: Option<Peer>)
      modifies this
      ensures if old(Value()).HasPeer(peer) then
                && Value() == WithoutPeer(old(Value()), peer)
                && removed == Some(old(peers)[Position(old(peers), peer)])
              else
                removed.None? && Value() == old(Value())
    {
      var i := Position(peers, peer);
      if i == |peers| {
        return None;
      }
      assert peers[i].id == peer;
      chatBlocked := chatBlocked - {peer};
      fileBlocked := fileBlocked - {peer};
      removed := Some(peers[i]);
      peers := peers[..i] + peers[i + 1..];
    }

    method SetOwner(peer: PeerId) returns (found: bool)
      modifies this
      ensures Value() == WithOwner(old(Value()), peer) && found == old(Value()).HasPeer(peer)
    {
      found := false;
      var key: Option<RateKey> := None;
      ghost var was := peers;
      assert was[..0] == [];
      for i := 0 to |peers|
        invariant |peers| == |was| && peers[i..] == was[i..]
        invariant peers[..i] == Flagged(was[..i], peer) && key == KeyOf(was[..i], peer)
        invariant found <==> exists j :: 0 <= j < i && was[j].id == peer
        invariant Value() == old(Value()).(peers := peers)
      {
        hide Flagged, KeyOf;
        FlaggedNext(was, peers, i, peer);
        if peers[i].id == peer {
          peers := peers[i := peers[i].(isOwner := true)];
          key := peers[i].rateKey;
          found := true;
        } else {
          peers := peers[i := peers[i].(isOwner := false)];
        }
      }
      assert was[..|was|] == was && peers[..|was|] == peers;
      if found {
        ownerRateKey := key;
      }
    }

    method InitiateClosing(c: Config, now: Timestamp)
      modifies this
      ensures Value() == StartClosing(c, old(Value()), now)
    {
      state := Closing;
      closingDeadline := Some(now + c.closingGrace);
    }

    method EvaluateLifecycle(c: Config, now: Timestamp) returns (action: LifecycleAction)
      modifies this
      ensures (Value(), action) == Evaluate(c, old(Value()), now)
    {
      if |peers| == 0 && state != Creating {
        state := Destroyed;
        return Destroy;
      }
      match state {
        case Closing =>
          if closingDeadline.Some? && now >= closingDeadline.value {
            state := Destroyed;
            return Destroy;
          }
          return NoAction;
        case Destroyed =>
          return Destroy;
        case Creating | Active =>
          if now >= expiresAt {
            InitiateClosing(c, now);
            return StateChanged(Closing);
          } else if expiresAt - now <= c.extendableThreshold {
            state := ExtendableWindow;
            return StateChanged(ExtendableWindow);
          } else {
            return NoAction;
          }
        case ExtendableWindow =>
          if now >= expiresAt {
            InitiateClosing(c, now);
            return StateChanged(Closing);
          } else {
            return NoAction;
          }
      }
    }

    method ExtendByOwner(c: Config, peer: PeerId) returns (error: Option<RoomError>)
      modifies this
      ensures match Extend(c, old(Value()), peer)
        case Success(r) => error.None? && Value() == r
        case Failure(e) => error == Some(e) && Value() == old(Value())
    {
      if !Value().IsOwner(peer) {
        return Some(Unauthorized);
      }
      if state != ExtendableWindow {
        return Some(NotInExtendableWindow);
      }
      expiresAt := expiresAt + c.extensionDuration;
      extensionCount := extensionCount + 1;
      state := Active;
      return None;
    }

    method CloseByOwner(c: Config, peer: PeerId, now: Timestamp) returns (error: Option<RoomError>)
      modifies this
      ensures match Close(c, old(Value()), peer, now)
        case Success(r) => error.None? && Value() == r
        case Failure(e) => error == Some(e) && Value() == old(Value())
    {
      if !Value().IsOwner(peer) {
        return Some(Unauthorized);
      }
      if state == Closing || state == Destroyed {
        return Some(RoomTerminated);
      }
      InitiateClosing(c, now);
      return None;
    }

    method RekeyByOwner(peer: PeerId, password: string) returns (error: Option<RoomError>)
      modifies this
      ensures match Rekey(old(Value()), peer, password)
        case Success(r) => error.None? && Value() == r
        case Failure(e) => error == Some(e) && Value() == old(Value())
    {
      if !Value().HasPermission(peer) {
        return Some(Unauthorized);
      }
      if state == Closing || state == Destroyed {
        return Some(RoomTerminated);
      }
      this.password := Password(true, Some(password));
      return None;
    }

    method SetChatVisibilityBlocked(peer: PeerId, blocked: bool) returns (error: Option<RoomError>)
      modifies this
      ensures match SetChatBlocked(old(Value()), peer, blocked)
        case Success(r) => error.None? && Value() == r
        case Failure(e) => error == Some(e) && Value() == old(Value())
    {
      if !Value().HasPeer(peer) {
        return Some(PeerNotFound(peer));
      }
      chatBlocked := if blocked then chatBlocked + {peer} else chatBlocked - {peer};
      return None;
    }

    method SetFileVisibilityBlocked(peer: PeerId, blocked: bool) returns (error: Option<RoomError>)
      modifies this
      ensures match SetFileBlocked(old(Value()), peer, blocked)
        case Success(r) => error.None? && Value() == r
        case Failure(e) => error == Some(e) && Value() == old(Value())
    {
      if !Value().HasPeer(peer) {
        return Some(PeerNotFound(peer));
      }
      fileBlocked := if blocked then fileBlocked + {peer} else fileBlocked - {peer};
      return None;
    }

    method SetMuted(peer: PeerId, muted: bool, until: Option<Timestamp>) returns (error: Option<RoomError>)
      modifies this
      ensures match SetMute(old(Value()), peer, muted, until)
        case Success(r) => error.None? && Value() == r
        case Failure(e) => error == Some(e) && Value() == old(Value())
    {
      var i := Position(peers, peer);
      if i == |peers| {
        return Some(PeerNotFound(peer));
      }
      assert peers[i].id == peer;
      peers := peers[i := peers[i].(isMuted := muted, mutedUntil := until)];
      return None;
    }

    method SetLocked(locked: bool)
      modifies this
      ensures Value() == old(Value()).(isLocked := locked)
    {
      isLocked := locked;
    }

    method RecordRotation(code: RoomCode, at: Time)
      modifies this
      ensures Value() == old(Value()).(code := code, lastRotation := at)
    {
      this.code := code;
      lastRotation := at;
    }

    method CheckExpiredMutes(now: Timestamp) returns (unmuted: seq<PeerId>)
      modifies this
      ensures Value() == ExpireMutes(old(Value()), now)
      ensures forall p :: p in unmuted <==> exists i :: 0 <= i < |old(peers)| && old(peers)[i].id == p && MuteOver(old(peers)[i], now)
    {
      unmuted := [];
      ghost var was := peers;
      for i := 0 to |peers|
        invariant |peers| == |was|
        invariant forall j :: 0 <= j < i ==>
          peers[j] == if MuteOver(was[j], now) then was[j].(isMuted := false, mutedUntil := None) else was[j]
        invariant forall j :: i <= j < |was| ==> peers[j] == was[j]
        invariant Value() == old(Value()).(peers := peers)
        invariant forall p :: p in unmuted <==> exists j :: 0 <= j < i && was[j].id == p && MuteOver(was[j], now)
      {
        if peers[i].isMuted && peers[i].mutedUntil.Some? && now >= peers[i].mutedUntil.value {
          unmuted := unmuted + [peers[i].id];
          peers := peers[i := peers[i].(isMuted := false, mutedUntil := None)];
        }
      }
      assert peers == Unmuted(was, now);
    }
  }
}
