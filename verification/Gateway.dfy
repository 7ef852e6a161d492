/**
 The handlers of the signaling server, each one atomic step on the room directory, the session
 registry and the sessions the sockets remember.
 */
module Gateway {
  import opened Basics
  import opened Rooms
  import opened RoomDirectory
  import opened Sessions

  datatype Limits = Limits(maxRooms: nat, maxRoomsPerOwner: nat)

  /** `session` holds each socket's own memory of the room and peer it acts for. */
  datatype Server = Server(dir: Directory, registry: Registry, session: map<Connection, (RoomId, PeerId)>)

  /** A handler's new state, what it put into channels through the registry, and its replies to the caller. */
  datatype Effect = Effect(server: Server, sent: set<Delivery>, replies: seq<Message>)

  function Refuse(s: Server, kind: string): Effect
  {
    Effect(s, {}, [ErrorNotice(kind)])
  }

  predicate IsBound(s: Server, conn: Connection)
  {
    conn in s.session || conn in s.registry.connections
  }

  predicate Permits(d: Directory, id: RoomId, peer: PeerId)
  {
    id in d.rooms && d.rooms[id].HasPermission(peer)
  }

  function ErrorKind(e: RoomError): string
  {
    match e
    case RoomFull(_) => "ROOM_FULL"
    case PeerAlreadyExists(_) => "PEER_ALREADY_EXISTS"
    case PeerNotFound(_) => "PEER_NOT_FOUND"
    case Unauthorized => "UNAUTHORIZED"
    case InvalidPassword => "INVALID_PASSWORD"
    case RoomTerminated => "ROOM_TERMINATED"
    case NotInExtendableWindow => "NOT_IN_EXTENDABLE_WINDOW"
    case RoomLocked => "ROOM_LOCKED"
  }

  function OnCreate(c: Config, limits: Limits, s: Server, conn: Connection, id: RoomId, draws: seq<RoomCode>, peer: PeerId,
                    key: RateKey, password: Password, hopping: bool, interval: Option<nat>, now: Timestamp, at: Time): Effect
  {
    if IsBound(s, conn) then Refuse(s, "ALREADY_IN_ROOM")
    else if |s.dir.rooms| >= limits.maxRooms then Refuse(s, "SERVER_BUSY")
    else if |ActiveByOwnerKey(s.dir, key, now)| >= limits.maxRoomsPerOwner then Refuse(s, "ACTIVE_ROOM_LIMIT_EXCEEDED")
    else
      var autoRotate := if hopping && interval.Some? && interval.value > 0 then interval else None;
      var (dir, code) := Create(c, s.dir, id, draws, Some(peer), Some(key), password, hopping, autoRotate, now, at);
      if code.None? then Refuse(s, "CREATION_FAILED")
      else
        Effect(Server(dir, WithMeta(Registered(s.registry, conn, id, peer), id, Meta(hopping, Some(peer))), s.session[conn := (id, peer)]),
               {}, [RoomCreated(code.value, peer, dir.rooms[id].expiresAt)])
  }

  function PeerIds(peers: seq<Peer>): seq<PeerId>
  {
    seq(|peers|, i requires 0 <= i < |peers| => peers[i].id)
  }

  /** `refused` is the join limiter's verdict and `code` the parsed room code. */
  function OnJoin(c: Config, s: Server, conn: Connection, refused: Option<string>, code: Option<RoomCode>, peer: PeerId,
                  secret: Option<string>, key: RateKey, draws: seq<RoomCode>, now: Timestamp, at: Time): Effect
  {
    if IsBound(s, conn) then Refuse(s, "ALREADY_IN_ROOM")
    else if refused.Some? then Refuse(s, refused.value)
    else if code.None? then Refuse(s, "INVALID_ROOM_CODE")
    else if code.value !in s.dir.index || s.dir.index[code.value] !in s.dir.rooms then Refuse(s, "ROOM_NOT_FOUND")
    else
      var id := s.dir.index[code.value];
      var r := s.dir.rooms[id];
      if r.Terminated() then Refuse(s, "ROOM_TERMINATED")
      else if r.isLocked then Refuse(s, "ROOM_LOCKED")
      else
        var (dir, error) := Join(c, s.dir, id, peer, false, secret, now, Some(key));
        if error.Some? then Refuse(s, ErrorKind(error.value)) else Joined(s, conn, dir, id, r, code.value, peer, draws, at)
  }

  /** What follows a successful join into the room that was `r` before it. */
  function Joined(s: Server, conn: Connection, dir: Directory, id: RoomId, r: Room, code: RoomCode, peer: PeerId,
                  draws: seq<RoomCode>, at: Time): Effect
  {
    var g := WithMeta(Registered(s.registry, conn, id, peer), id, Meta(r.hopping, r.OwnerPeerId()));
    var reply := JoinOk(if r.hopping then "" else code, peer, r.OwnerPeerId(), r.expiresAt, PeerIds(r.peers));
    var (rotated, result) := if r.hopping then Rotate(dir, id, draws, at) else (dir, Failure(Unauthorized));
    Effect(Server(rotated, g, s.session[conn := (id, peer)]),
           Broadcasted(g, id, PeerJoined(peer), Some(peer))
           + (if result.Success? && r.OwnerPeerId().Some?
              then Sent(g, id, r.OwnerPeerId().value, RoomCodeRotated(result.value)) else {}),
           [reply])
  }

  function OnRelay(s: Server, conn: Connection, target: PeerId): Effect
  {
    if conn !in s.session then Refuse(s, "NOT_IN_ROOM") else
      var (id, sender) := s.session[conn];
      Effect(s, Sent(s.registry, id, target, Relayed(sender)),
             if target in PeersIn(s.registry, id) then [] else [ErrorNotice("PEER_NOT_FOUND")])
  }

  function OnRekey(s: Server, conn: Connection, secret: string): Effect
  {
    if conn !in s.session then Refuse(s, "NOT_IN_ROOM") else
      var (id, sender) := s.session[conn];
      if id !in s.dir.rooms || !s.dir.rooms[id].IsOwner(sender) then Refuse(s, "UNAUTHORIZED") else
        var (dir, error) := RekeyRoom(s.dir, id, sender, secret);
        if error.Some? then Refuse(s, ErrorKind(error.value))
        else Effect(s.(dir := dir), Broadcasted(s.registry, id, RekeyNotice(dir.rooms[id].code), None), [])
  }

  function OnKick(s: Server, conn: Connection, target: PeerId): Effect
  {
    if conn !in s.session then Refuse(s, "NOT_IN_ROOM") else
      var (id, sender) := s.session[conn];
      if !Permits(s.dir, id, sender) then Refuse(s, "UNAUTHORIZED")
      else if sender == target then Refuse(s, "CANNOT_KICK_SELF")
      else
        var (dir, result) := Kick(s.dir, id, sender, target);
        if result.Failure? then Refuse(s, ErrorKind(result.error))
        else
          Effect(s.(dir := dir),
                 Sent(s.registry, id, target, ErrorNotice("KICKED_FROM_ROOM"))
                 + Broadcasted(s.registry, id, PeerLeft(target), Some(target)),
                 [])
  }

  /** What the room learns when ownership passes to `heir`. */
  function Announced(g: Registry, id: RoomId, code: RoomCode, heir: PeerId, hopping: bool): set<Delivery>
  {
    Broadcasted(g, id, RoomOwnerChanged(code, heir), None) + if hopping then Sent(g, id, heir, RoomCodeRotated(code)) else {}
  }

  function OnTransfer(s: Server, conn: Connection, heir: PeerId): Effect
  {
    if conn !in s.session then Refuse(s, "NOT_IN_ROOM") else
      var (id, sender) := s.session[conn];
      if !Permits(s.dir, id, sender) then Refuse(s, "UNAUTHORIZED")
      else if sender == heir then Refuse(s, "ALREADY_OWNER")
      else
        var (dir, result) := Transfer(s.dir, id, sender, heir);
        if result.Failure? then Refuse(s, ErrorKind(result.error))
        else
          var g := WithOwnerMeta(s.registry, id, Some(heir));
          Effect(s.(dir := dir, registry := g), Announced(g, id, result.value, heir, dir.rooms[id].hopping), [])
  }

  function OnLock(s: Server, conn: Connection, locked: bool): Effect
  {
    if conn !in s.session then Refuse(s, "NOT_IN_ROOM") else
      var (id, sender) := s.session[conn];
      if !Permits(s.dir, id, sender) then Refuse(s, "UNAUTHORIZED")
      else
        var dir := LockRoom(s.dir, id, sender, locked).0;
        Effect(s.(dir := dir), Broadcasted(s.registry, id, RoomLockedNotice(dir.rooms[id].code, locked), None), [])
  }

  function ModerationNotice(target: PeerId, m: Moderation): Message
  {
    match m
    case BlockChat(blocked) => ChatVisibilityBlocked(target, blocked)
    case BlockFiles(blocked) => FileVisibilityBlocked(target, blocked)
    case Mute(until) => PeerMuted(target, until)
    case Unmute => PeerUnmuted(target)
  }

  function OnModerate(s: Server, conn: Connection, target: PeerId, m: Moderation): Effect
  {
    if conn !in s.session then Refuse(s, "NOT_IN_ROOM") else
      var (id, sender) := s.session[conn];
      if !Permits(s.dir, id, sender) then Refuse(s, "UNAUTHORIZED")
      else
        var (dir, error) := Moderate(s.dir, id, sender, target, m);
        if error.Some? then Refuse(s, ErrorKind(error.value))
        else Effect(s.(dir := dir), Broadcasted(s.registry, id, ModerationNotice(target, m), None), [])
  }

  function OnDetonate(s: Server, conn: Connection): Effect
  {
    if conn !in s.session then Refuse(s, "NOT_IN_ROOM") else
      var (id, sender) := s.session[conn];
      if !Permits(s.dir, id, sender) then Refuse(s, "UNAUTHORIZED")
      else
        Effect(Server(Detonate(s.dir, id, sender).0, Forgotten(s.registry, id), s.session - {conn}),
               Broadcasted(s.registry, id, RoomDetonated(s.dir.rooms[id].code), None), [])
  }

  /** A socket has closed: the session it remembers is cleaned up, or else the one registered for it. */
  function OnDisconnect(s: Server, conn: Connection): Effect
  {
    var g := Disconnected(s.registry, conn);
    var closed := s.(registry := g, session := s.session - {conn});
    if conn in s.session then Departed(closed, s.session[conn].0, s.session[conn].1)
    else if conn in s.registry.connections then Departed(closed, s.registry.connections[conn].0, s.registry.connections[conn].1)
    else Effect(closed, {}, [])
  }

  /** Once a room is closed and forgotten, the handler's own closing broadcast reaches nobody. */
  function Departed(s: Server, id: RoomId, peer: PeerId): Effect
  {
    var (dir, outcome) := Leave(s.dir, id, peer);
    if outcome.None? then Effect(s, {}, [])
    else if outcome.value.destroyed then
      Effect(s.(dir := dir, registry := Forgotten(s.registry, id)),
             Broadcasted(s.registry, id, RoomClosed(outcome.value.code, "room_empty"), None), [])
    else
      var left := Broadcasted(s.registry, id, PeerLeft(peer), None);
      if outcome.value.newOwner.None? then Effect(s.(dir := dir), left, [])
      else
        var heir := outcome.value.newOwner.value;
        var g := WithOwnerMeta(s.registry, id, Some(heir));
        Effect(s.(dir := dir, registry := g), left + Announced(g, id, outcome.value.code, heir, dir.rooms[id].hopping), [])
  }

  /** The announced deadline is always ten seconds away, whatever grace period is configured. */
  function ClosingNotice(code: RoomCode, now: Timestamp): Message
  {
    RoomClosing(code, now + 10, now)
  }

  /** What one room's channels receive when the sweeper ticks; `later` is the registry after the purge. */
  function TickMail(c: Config, s: Server, later: Registry, now: Timestamp, id: RoomId): set<Delivery>
    requires id in s.dir.rooms
  {
    var r := s.dir.rooms[id];
    var (_, action) := Swept(c, r, now);
    (if action == StateChanged(Closing) then Broadcasted(s.registry, id, ClosingNotice(r.code, now), None)
     else if action.Destroy? then Broadcasted(s.registry, id, RoomClosed(r.code, "lifetime_or_grace_period_expired"), None)
     else {})
    + set i, d | 0 <= i < |r.peers| && MuteOver(r.peers[i], now) && d in Broadcasted(later, id, PeerUnmuted(r.peers[i].id), None) :: d
  }

  function OnTick(c: Config, s: Server, now: Timestamp): Effect
  {
    var dead := set id | id in s.dir.rooms && Dies(c, s.dir.rooms[id], now);
    var later := s.registry.(rooms := s.registry.rooms - dead, meta := s.registry.meta - dead);
    Effect(s.(dir := Tick(c, s.dir, now), registry := later),
           set id, d | id in s.dir.rooms && d in TickMail(c, s, later, now, id) :: d, [])
  }

  predicate RotationDue(r: Room, at: Time)
  {
    r.hopping && r.autoRotate.Some? && r.autoRotate.value > 0 && at >= r.lastRotation && at - r.lastRotation >= r.autoRotate.value * SECOND
  }

  /** One candidate of the periodic rotation. */
  function OnAutoRotate(s: Server, id: RoomId, draws: seq<RoomCode>, at: Time): Effect
  {
    if id !in s.dir.rooms || !RotationDue(s.dir.rooms[id], at) || s.dir.rooms[id].OwnerPeerId().None? then Effect(s, {}, [])
    else
      var (dir, result) := Rotate(s.dir, id, draws, at);
      Effect(s.(dir := dir),
             if result.Success? then Sent(s.registry, id, s.dir.rooms[id].OwnerPeerId().value, RoomCodeRotated(result.value)) else {}, [])
  }

  // The HTTP routes that change rooms; their own responses are not messages.

  function OnHttpCreate(c: Config, limits: Limits, s: Server, id: RoomId, draws: seq<RoomCode>, owner: Option<PeerId>, key: RateKey,
                        password: Password, now: Timestamp, at: Time): Effect
  {
    if |s.dir.rooms| >= limits.maxRooms || |ActiveByOwnerKey(s.dir, key, now)| >= limits.maxRoomsPerOwner then Effect(s, {}, [])
    else Effect(s.(dir := Create(c, s.dir, id, draws, owner, Some(key), password, false, None, now, at).0), {}, [])
  }

  function OnHttpExtend(c: Config, s: Server, code: RoomCode, peer: PeerId): Effect
  {
    if code !in s.dir.index then Effect(s, {}, [])
    else Effect(s.(dir := ExtendRoom(c, s.dir, s.dir.index[code], peer).0), {}, [])
  }

  function OnHttpClose(c: Config, s: Server, code: RoomCode, peer: PeerId, now: Timestamp): Effect
  {
    if code !in s.dir.index then Effect(s, {}, [])
    else
      var id := s.dir.index[code];
      var (dir, error) := CloseRoom(c, s.dir, id, peer, now);
      Effect(s.(dir := dir),
             if error.None? then Broadcasted(s.registry, id, ClosingNotice(dir.rooms[id].code, now), None) else {}, [])
  }

  datatype Incoming =
    | CreateMessage(conn: Connection, id: RoomId, draws: seq<RoomCode>, peer: PeerId, key: RateKey, password: Password,
                    hopping: bool, interval: Option<nat>)
    | JoinMessage(conn: Connection, refused: Option<string>, code: Option<RoomCode>, peer: PeerId, secret: Option<string>,
                  key: RateKey, draws: seq<RoomCode>)
    | RelayMessage(conn: Connection, target: PeerId)
    | RekeyMessage(conn: Connection, newSecret: string)
    | KickMessage(conn: Connection, target: PeerId)
    | TransferMessage(conn: Connection, target: PeerId)
    | LockMessage(conn: Connection, locked: bool)
    | ModerateMessage(conn: Connection, target: PeerId, moderation: Moderation)
    | DetonateMessage(conn: Connection)
    | Disconnect(conn: Connection)
    | SweeperTick
    | AutoRotation(id: RoomId, draws: seq<RoomCode>)
    | HttpCreate(id: RoomId, draws: seq<RoomCode>, owner: Option<PeerId>, key: RateKey, password: Password)
    | HttpExtend(roomCode: RoomCode, peer: PeerId)
    | HttpClose(roomCode: RoomCode, peer: PeerId)

  function Handle(c: Config, limits: Limits, s: Server, e: Incoming, now: Timestamp, at: Time): Effect
  {
    match e
    case CreateMessage(conn, id, draws, peer, key, password, hopping, interval) =>
      OnCreate(c, limits, s, conn, id, draws, peer, key, password, hopping, interval, now, at)
    case JoinMessage(conn, refused, code, peer, secret, key, draws) =>
      OnJoin(c, s, conn, refused, code, peer, secret, key, draws, now, at)
    case RelayMessage(conn, target) => OnRelay(s, conn, target)
    case RekeyMessage(conn, secret) => OnRekey(s, conn, secret)
    case KickMessage(conn, target) => OnKick(s, conn, target)
    case TransferMessage(conn, target) => OnTransfer(s, conn, target)
    case LockMessage(conn, locked) => OnLock(s, conn, locked)
    case ModerateMessage(conn, target, moderation) => OnModerate(s, conn, target, moderation)
    case DetonateMessage(conn) => OnDetonate(s, conn)
    case Disconnect(conn) => OnDisconnect(s, conn)
    case SweeperTick => OnTick(c, s, now)
    case AutoRotation(id, draws) => OnAutoRotate(s, id, draws, at)
    case HttpCreate(id, draws, owner, key, password) => OnHttpCreate(c, limits, s, id, draws, owner, key, password, now, at)
    case HttpExtend(code, peer) => OnHttpExtend(c, s, code, peer)
    case HttpClose(code, peer) => OnHttpClose(c, s, code, peer, now)
  }
}
